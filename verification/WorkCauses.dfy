// Who can move a task or its claim: for every change of one of these rows, in any
// transaction, what must have held before it.
module WorkCauses {
  import opened Options
  import opened FilePlans
  import opened LedgerTypes
  import opened Transactions
  import opened LedgerInvariants
  import opened LedgerProofs
  import opened Protocol
  import opened Frames
  import opened ClosingCauses

  // The worker holds the unreleased, unexpired claim of the task's current attempt.
  predicate Fenced(d: Db, r: Record, t: TaskId) {
    && r.task == t && LiveClaim(d, t) && d.claims[t].worker == r.worker && d.claims[t].exec == r.exec
    && t in d.tasks && d.tasks[t].current == Some(r.exec)
  }

  // The attempt was not asked to stop, so that it may end as its worker reports.
  predicate Unasked(d: Db, r: Record) { r.exec in d.execs && !d.execs[r.exec].status.ExecCancelling? }

  // The task is the first claimable one in queue order and a slot is free.
  predicate Due(d: Db, t: TaskId, w: WorkerId, slots: int) {
    && Claimable(d, t, w) && |OpenClaims(d)| < slots
    && forall u | u in d.tasks && u != t && Claimable(d, u, w) :: Before(d.tasks[t], d.tasks[u])
  }

  // ---------- claims ----------

  ghost predicate ClaimCause(d: Db, s: Step, t: TaskId, c: Claim) {
    match s
    case ClaimStep(w, slots, u, x) =>
      u == t && Due(d, t, w, slots) && !OpenClaim(d, t) && x !in d.execs
      && c == Claim(w, d.tasks[t].owner, x, d.clock + LEASE_SECONDS, false)
    case RenewStep(r) =>
      r.task == t && LiveClaim(d, t) && d.claims[t].worker == r.worker && d.claims[t].exec == r.exec
      && c == d.claims[t].(expires := d.clock + LEASE_SECONDS)
    case FinishStep(r, _, _, _) => Fenced(d, r, t) && c == d.claims[t].(released := true)
    case RecoverStep => t in d.claims && t in d.tasks && Interrupted(d, t) && c == d.claims[t].(released := true)
    // Only a claim whose attempt can no longer acknowledge the stop is taken away.
    case CancelStep(u, owner, _) =>
      && u == t && t in d.claims && t in d.tasks && d.tasks[t].owner == owner && !TerminalTask(d.tasks[t].status) && !Stoppable(d, t)
      && c == d.claims[t].(released := true)
    case _ => false
  }

  ghost predicate MovesClaim(d: Db, e: Db, t: TaskId) {
    t in e.claims && (t !in d.claims || e.claims[t] != d.claims[t])
  }

  // In any transaction, every new or changed claim row has its cause.
  lemma ClaimMovesHaveCauses(d: Db, s: Step, t: TaskId)
    ensures MovesClaim(d, Next(d, s), t) ==> ClaimCause(d, s, t, Next(d, s).claims[t])
  {
    if MovesClaim(d, Next(d, s), t) {
      if PlanReview(s) { ReviewClaimCause(d, s, t); }
      else if AttemptStep(s) { AttemptClaimCause(d, s, t); }
      else if ApplyStep(s) { hide Next; ApplyFrame(d, s); }
      else if IntakeStep(s) { hide Next; IntakeFrame(d, s); }
      else { hide Next; OtherFrame(d, s); }
    }
  }

  lemma ReviewClaimCause(d: Db, s: Step, t: TaskId)
    requires PlanReview(s) && MovesClaim(d, Next(d, s), t)
    ensures ClaimCause(d, s, t, Next(d, s).claims[t])
  {
    hide Tick, RegisterWorker, Heartbeat, SubmitRequest, SubmitApply, ApproveAndSubmit, ApprovePlan, RevokePlan, ProposePlan;
    hide StartFailure, Recover, ClaimNext, Renew, Finish, Resume, CancelTask, SettleExpired, BeginApply, MarkJournal, CommitApply;
    hide FailApply, CrashApply, ResolvePlan, ClaimDelivery, SettleDelivery, Acknowledge, ResetSession, Assess;
    hide Stoppable;
    match s {
      case RevokeStep(p, owner) => RevokeFrame(d, p, owner);
      case SettleExpiredStep(ps, ts) => SettleExpiredFrame(d, ps, ts);
      case CancelStep(u, owner, selected) => CancelClaims(d, u, owner, selected);
      case ResolveStep(p, owner, complete) => ResolveFrame(d, p, owner, complete);
      case ApproveStep(p, owner, reviewed, draft) => ApproveFrame(d, p, owner, reviewed, draft);
      case ProposeStep(p, u, owner, changes, drafted, draft) => ProposeFrame(d, p, u, owner, changes, drafted, draft);
    }
  }

  lemma CancelClaims(d: Db, t: TaskId, owner: Owner, selected: bool)
    ensures var e := CancelTask(d, t, owner, selected);
      if CancelActs(d, t, owner, selected) && !Stoppable(d, t) && t in d.claims
      then e.claims == d.claims[t := d.claims[t].(released := true)] else e.claims == d.claims
  {
    hide Unresolved, Withdraw;
    if CancelActs(d, t, owner, selected) {
      WithdrawFrame(d, t);
      WithdrawKeepsRow(d, t);
      if Stoppable(d, t) {} else {}
    }
  }

  lemma AttemptClaimCause(d: Db, s: Step, t: TaskId)
    requires AttemptStep(s) && MovesClaim(d, Next(d, s), t)
    ensures ClaimCause(d, s, t, Next(d, s).claims[t])
  {
    hide Tick, RegisterWorker, Heartbeat, SubmitRequest, SubmitApply, ApproveAndSubmit, ApprovePlan, RevokePlan, ProposePlan;
    hide StartFailure, Recover, ClaimNext, Renew, Finish, Resume, CancelTask, SettleExpired, BeginApply, MarkJournal, CommitApply;
    hide FailApply, CrashApply, ResolvePlan, ClaimDelivery, SettleDelivery, Acknowledge, ResetSession, Assess;
    hide Due;
    match s {
      case StartFailureStep(u, owner, x) => StartFailureFrame(d, u, owner, x);
      case ResumeStep(u, owner, w) => ResumeFrame(d, u, owner, w);
      case RecoverStep => RecoveredClaims(d);
      case ClaimStep(w, slots, u, x) => ClaimedRows(d, w, slots, u, x);
      case RenewStep(r) => RenewedClaims(d, r);
      case FinishStep(r, outcome, question, draftLive) => FinishedClaims(d, r, outcome, question, draftLive);
    }
  }

  lemma RecoveredClaims(d: Db)
    ensures Recover(d).claims.Keys == d.claims.Keys
    ensures forall t | t in d.claims ::
      || Recover(d).claims[t] == d.claims[t]
      || (t in d.tasks && Interrupted(d, t) && Recover(d).claims[t] == d.claims[t].(released := true))
  {
    hide Interrupted, LosesExec;
  }

  lemma ClaimedRows(d: Db, w: WorkerId, slots: int, t: TaskId, x: ExecId)
    ensures var e := ClaimNext(d, w, slots, t, x);
      || e == d
      || (&& Due(d, t, w, slots) && !OpenClaim(d, t) && x !in d.execs
          && e.claims == d.claims[t := Claim(w, d.tasks[t].owner, x, d.clock + LEASE_SECONDS, false)]
          && e.tasks == d.tasks[t := d.tasks[t].(status := Running, current := Some(x), attempts := d.tasks[t].attempts + 1)])
  {
    hide HasEarlierWork, Excluded;
    if ClaimAnswers(d, w, slots, Some(t)) && ClaimInserts(d, t, x) {}
  }

  lemma RenewedClaims(d: Db, r: Record)
    ensures var e := Renew(d, r);
      || e == d
      || (&& LiveClaim(d, r.task) && d.claims[r.task].worker == r.worker && d.claims[r.task].exec == r.exec
          && e.claims == d.claims[r.task := d.claims[r.task].(expires := d.clock + LEASE_SECONDS)])
  {
    if CanRenew(d, r) {}
  }

  lemma FinishedClaims(d: Db, r: Record, outcome: Outcome, question: bool, draftLive: bool)
    ensures var e := Finish(d, r, outcome, question, draftLive);
      e == d || (Fenced(d, r, r.task) && e.claims == d.claims[r.task := d.claims[r.task].(released := true)])
  {
    hide Unresolved, LivePlan, CompleteParent, MarkTurn, MarkSession;
    if FinishCommits(d, r, outcome, draftLive) { hide Committed; }
  }

  // ---------- tasks ----------

  // What justifies the step moving task `t` into status `b`.
  ghost predicate TaskCause(d: Db, s: Step, t: TaskId, b: TaskStatus)
    requires t in d.tasks
  {
    var r := d.tasks[t];
    match b
    // Only the owner requeues, and only a request without file effects that it can repeat.
    case Queued =>
      && s.ResumeStep? && s.t == t && s.owner == r.owner && r.kind.Request? && (r.status.Blocked? || r.status.Failed?)
      && r.attempts < r.limit && WorkerReady(d, s.w) && !Unresolved(d, t, false) && !AmbiguousDelivery(d, t)
      && forall p | p in d.plans && d.plans[p].task == t :: !BegunPlan(d.plans[p].status)
    case Running => s.ClaimStep? && s.t == t && Due(d, t, s.w, s.slots) && s.x !in d.execs
    case AwaitingApproval => s.FinishStep? && Fenced(d, s.r, t) && Unasked(d, s.r) && s.outcome.OutAwaiting? && (LivePlan(d, t) || s.draftLive)
    case Completed =>
      || (s.FinishStep? && s.outcome.OutSucceeded? && Fenced(d, s.r, s.r.task) && Unasked(d, s.r) && (s.r.task == t || r.status.AwaitingApproval?)
          && (d.tasks[s.r.task].kind.Apply? || s.r.task != t ==> AppliedFor(d, s.r.task, t)))
      || ClosingCause(d, s, t, b)
    case Failed => s.FinishStep? && Fenced(d, s.r, t) && Unasked(d, s.r) && (s.outcome.OutFailed? || s.outcome.OutTimedOut?)
    case Cancelling => ActiveTask(r.status) && ClosingCause(d, s, t, b)
    case Blocked => (s.FinishStep? && Fenced(d, s.r, t)) || (s.RecoverStep? && Interrupted(d, t)) || ClosingCause(d, s, t, b)
    case Cancelled => (s.FinishStep? && Fenced(d, s.r, t) && (s.outcome.OutCancelled? || s.outcome.OutAwaiting?)) || ClosingCause(d, s, t, b)
  }

  // `a` applied its plan, for itself or for the request `t` that proposed it.
  predicate AppliedFor(d: Db, a: TaskId, t: TaskId) {
    && a in d.tasks && d.tasks[a].kind.Apply? && d.tasks[a].kind.plan in d.plans
    && var p := d.plans[d.tasks[a].kind.plan];
    && p.status.PlanApplied? && (a == t || p.task == t)
  }

  lemma DecisionsSpareTasks(d: Db, s: Step)
    requires PlanReview(s) && !Closes(s)
    ensures Next(d, s).tasks == d.tasks
  {
    hide Tick, RegisterWorker, Heartbeat, SubmitRequest, SubmitApply, ApproveAndSubmit, ApprovePlan, RevokePlan, ProposePlan;
    hide StartFailure, Recover, ClaimNext, Renew, Finish, Resume, CancelTask, SettleExpired, BeginApply, MarkJournal, CommitApply;
    hide FailApply, CrashApply, ResolvePlan, ClaimDelivery, SettleDelivery, Acknowledge, ResetSession, Assess;
    match s {
      case ApproveStep(p, owner, reviewed, draft) => ApproveFrame(d, p, owner, reviewed, draft);
      case ProposeStep(p, u, owner, changes, drafted, draft) => ProposeFrame(d, p, u, owner, changes, drafted, draft);
    }
  }

  // A closing step moves no task into a status of its own choice.
  lemma ClosingIsCause(d: Db, s: Step, t: TaskId, b: TaskStatus)
    requires Inv(d) && t in d.tasks && b != d.tasks[t].status && ClosingCause(d, s, t, b)
    ensures TaskCause(d, s, t, b)
  {
    hide LiveClaim, Unresolved, CanResolve, CancelActs;
    if s.CancelStep? && t == s.t && Stoppable(d, t) { StoppableIsActive(d, t); }
  }

  lemma StoppableIsActive(d: Db, t: TaskId)
    requires Inv(d) && t in d.tasks && Stoppable(d, t)
    ensures ActiveTask(d.tasks[t].status)
  {
    assert ClaimRow(d, t);
  }

  lemma ReviewTaskCause(d: Db, s: Step, t: TaskId)
    requires Inv(d) && PlanReview(s) && MovesTask(d, Next(d, s), t)
    ensures TaskCause(d, s, t, Next(d, s).tasks[t].status)
  {
    hide Next, Inv, TaskCause, ClosingCause;
    if Closes(s) {
      ClosingMovesHaveCauses(d, s, t);
      ClosingIsCause(d, s, t, Next(d, s).tasks[t].status);
    } else {
      DecisionsSpareTasks(d, s);
    }
  }

  lemma FinishedTasks(d: Db, r: Record, outcome: Outcome, question: bool, draftLive: bool, t: TaskId)
    requires MovesTask(d, Finish(d, r, outcome, question, draftLive), t)
    ensures TaskCause(d, FinishStep(r, outcome, question, draftLive), t, Finish(d, r, outcome, question, draftLive).tasks[t].status)
  {
    hide Unresolved, LivePlan, MarkTurn, MarkSession, AmbiguousDelivery, Due, WorkerReady, Interrupted, ClosingCause;
    if FinishCommits(d, r, outcome, draftLive) {}
  }

  lemma ResumedTasks(d: Db, t: TaskId, owner: Owner, w: WorkerId)
    requires MovesTask(d, Resume(d, t, owner, w), t)
    ensures TaskCause(d, ResumeStep(t, owner, w), t, Resume(d, t, owner, w).tasks[t].status)
  {
    hide Unresolved, AmbiguousDelivery;
    if CanResume(d, t, owner, w) {}
  }

  lemma ResumedOthers(d: Db, u: TaskId, owner: Owner, w: WorkerId, t: TaskId)
    requires MovesTask(d, Resume(d, u, owner, w), t)
    ensures t == u
  {
    hide CanResume;
    if u in d.tasks {}
  }

  lemma RecoveredTasks(d: Db, t: TaskId)
    requires MovesTask(d, Recover(d), t)
    ensures TaskCause(d, RecoverStep, t, Recover(d).tasks[t].status)
  {
    hide Interrupted, LosesExec;
  }

  lemma FailedStartTasks(d: Db, u: TaskId, owner: Owner, x: ExecId, t: TaskId)
    requires t in d.tasks
    ensures !MovesTask(d, StartFailure(d, u, owner, x), t)
  {
    if CanRecordFailure(d, u, owner, x) {}
  }

  lemma AttemptTaskCause(d: Db, s: Step, t: TaskId)
    requires AttemptStep(s) && MovesTask(d, Next(d, s), t)
    ensures TaskCause(d, s, t, Next(d, s).tasks[t].status)
  {
    hide Tick, RegisterWorker, Heartbeat, SubmitRequest, SubmitApply, ApproveAndSubmit, ApprovePlan, RevokePlan, ProposePlan;
    hide StartFailure, Recover, ClaimNext, Renew, Finish, Resume, CancelTask, SettleExpired, BeginApply, MarkJournal, CommitApply;
    hide FailApply, CrashApply, ResolvePlan, ClaimDelivery, SettleDelivery, Acknowledge, ResetSession, Assess;
    hide Due, Unresolved, Fenced, Interrupted, LivePlan, AppliedFor, WorkerReady;
    match s {
      case StartFailureStep(u, owner, x) => FailedStartTasks(d, u, owner, x, t);
      case ResumeStep(u, owner, w) =>
        ResumedOthers(d, u, owner, w, t);
        ResumedTasks(d, t, owner, w);
      case RecoverStep => RecoveredTasks(d, t);
      case ClaimStep(w, slots, u, x) => ClaimedRows(d, w, slots, u, x);
      case RenewStep(r) => RenewFrame(d, r);
      case FinishStep(r, outcome, question, draftLive) => FinishedTasks(d, r, outcome, question, draftLive, t);
    }
  }

  lemma SubmittedTasks(d: Db, i: Intake, t: TaskId)
    ensures var e := SubmitRequest(d, i);
      e.tasks == d.tasks || (CanSubmit(d, i) && e.tasks == d.tasks[i.task := NewTask(d, i, Request, i.parent)])
  {
    hide Newest;
    if i.conversation.Some? { BindFrame(Insert(d, i, Request, i.parent), i.task, SessionKey(i.owner, i.conversation.value, i.workspace)); }
    hide Bind;
    if CanSubmit(d, i) {}
  }

  lemma SubmittedApplies(d: Db, i: Intake, p: PlanId)
    ensures var e := SubmitApply(d, i, p);
      e.tasks == d.tasks || (CanSubmitApply(d, i, p) && e.tasks == d.tasks[i.task := NewTask(d, i, Apply(p), Some(d.plans[p].task))])
  {
    if CanSubmitApply(d, i, p) {}
  }

  // An admission in one commit with the approval.
  predicate ApprovesApply(d: Db, i: Intake, p: PlanId, reviewed: seq<Change>, draft: bool) {
    WorkerReady(d, i.worker) && i.task !in d.tasks && !HasApplyTask(d, p) && CanApprove(d, p, i.owner, reviewed, draft)
  }

  lemma ApprovedApplies(d: Db, i: Intake, p: PlanId, reviewed: seq<Change>, draft: bool)
    ensures var e := ApproveAndSubmit(d, i, p, reviewed, draft);
      || e.tasks == d.tasks
      || (ApprovesApply(d, i, p, reviewed, draft)
          && e.tasks == d.tasks[i.task := NewTask(d, i.(workspace := d.plans[p].workspace, source := None), Apply(p), Some(d.plans[p].task))])
  {
    hide HasApplyTask;
    if !HasApplyTask(d, p) && CanApprove(d, p, i.owner, reviewed, draft) {
      var d1 := SetPlan(d, p, PlanApproved);
      assert ApprovePlan(d, p, i.owner, reviewed, draft) == d1;
      if CanSubmitApply(d1, i.(workspace := d.plans[p].workspace, source := None), p) {}
    }
  }

  lemma AssessedTasks(d: Db, u: TaskId, priority: int)
    ensures var e := Assess(d, u, priority);
      e.tasks == if u in d.tasks then d.tasks[u := d.tasks[u].(priority := priority)] else d.tasks
  {
    if u in d.tasks {}
  }

  // ---------- admissions ----------

  // What justifies a new task row.
  ghost predicate Admitted(d: Db, s: Step, t: TaskId, r: Task) {
    && IntakeStep(s) && r.status.Queued? && r.eligible && r.current.None? && r.attempts == 0 && r.limit == MAX_ATTEMPTS
    && r.rowid == d.rows && r.created == d.clock && r.priority == 100 && WorkerReady(d, r.worker)
    && (r.source.Some? ==> forall u | u in d.tasks :: d.tasks[u].source != r.source)
    && match r.kind
       case Request =>
         && s.SubmitStep? && r.owner == s.intake.owner && r.workspace == s.intake.workspace && r.worker == s.intake.worker
         && r.source == s.intake.source && r.parent == s.intake.parent
       case Apply(p) =>
         && !HasApplyTask(d, p) && p in d.plans
         && var q := d.plans[p];
         && r.owner == q.owner && r.workspace == q.workspace && r.parent == Some(q.task)
         && ((s.SubmitApplyStep? && r.worker == s.intake.worker && r.source == s.intake.source && q.status.PlanApproved?)
             || (s.ApproveAndSubmitStep? && r.worker == s.intake.worker && r.source.None? && OpenPlan(q.status) && q.expires > d.clock && s.reviewed == q.hash))
  }

  // What an intake leaves of the task table, seen at one row.
  ghost predicate Takes(d: Db, s: Step, e: Db, t: TaskId) {
    t in e.tasks ==> if t in d.tasks then e.tasks[t].status == d.tasks[t].status else Admitted(d, s, t, e.tasks[t])
  }

  lemma SubmitTakes(d: Db, i: Intake, t: TaskId)
    ensures Takes(d, SubmitStep(i), SubmitRequest(d, i), t)
  {
    hide SubmitRequest, WorkerReady, HasApplyTask;
    SubmittedTasks(d, i, t);
  }

  lemma SubmitApplyTakes(d: Db, i: Intake, p: PlanId, t: TaskId)
    ensures Takes(d, SubmitApplyStep(i, p), SubmitApply(d, i, p), t)
  {
    hide SubmitApply, WorkerReady, HasApplyTask;
    SubmittedApplies(d, i, p);
  }

  lemma ApproveAndSubmitTakes(d: Db, i: Intake, p: PlanId, reviewed: seq<Change>, draft: bool, t: TaskId)
    ensures Takes(d, ApproveAndSubmitStep(i, p, reviewed, draft), ApproveAndSubmit(d, i, p, reviewed, draft), t)
  {
    hide ApproveAndSubmit, WorkerReady, HasApplyTask;
    ApprovedApplies(d, i, p, reviewed, draft);
  }

  lemma IntakeTakes(d: Db, s: Step, t: TaskId)
    requires IntakeStep(s)
    ensures Takes(d, s, Next(d, s), t)
  {
    hide Tick, RegisterWorker, Heartbeat, SubmitRequest, SubmitApply, ApproveAndSubmit, ApprovePlan, RevokePlan, ProposePlan;
    hide StartFailure, Recover, ClaimNext, Renew, Finish, Resume, CancelTask, SettleExpired, BeginApply, MarkJournal, CommitApply;
    hide FailApply, CrashApply, ResolvePlan, ClaimDelivery, SettleDelivery, Acknowledge, ResetSession, Assess;
    hide Admitted;
    match s {
      case SubmitStep(i) => SubmitTakes(d, i, t);
      case SubmitApplyStep(i, p) => SubmitApplyTakes(d, i, p, t);
      case ApproveAndSubmitStep(i, p, reviewed, draft) => ApproveAndSubmitTakes(d, i, p, reviewed, draft, t);
      case ResetStep(k) => ResetFrame(d, k);
      case AssessStep(u, priority) => AssessedTasks(d, u, priority);
    }
  }

  lemma FinishSameTasks(d: Db, r: Record, outcome: Outcome, question: bool, draftLive: bool)
    ensures Finish(d, r, outcome, question, draftLive).tasks.Keys == d.tasks.Keys
  {
    hide Unresolved, LivePlan, MarkTurn, MarkSession;
    if FinishCommits(d, r, outcome, draftLive) { hide Committed; }
  }

  lemma AttemptSameTasks(d: Db, s: Step)
    requires AttemptStep(s)
    ensures Next(d, s).tasks.Keys == d.tasks.Keys
  {
    hide ClaimNext, Renew, Finish, CanResume, CanRecordFailure, Interrupted, LosesExec;
    match s {
      case StartFailureStep(u, owner, x) => if CanRecordFailure(d, u, owner, x) { CanRecordFailureKnows(d, u, owner, x); }
      case ResumeStep(u, owner, w) => if CanResume(d, u, owner, w) { CanResumeKnows(d, u, owner, w); }
      case RecoverStep =>
      case ClaimStep(w, slots, u, x) => ClaimedRows(d, w, slots, u, x);
      case RenewStep(r) => RenewFrame(d, r);
      case FinishStep(r, outcome, question, draftLive) => FinishSameTasks(d, r, outcome, question, draftLive);
    }
  }

  lemma CanRecordFailureKnows(d: Db, t: TaskId, owner: Owner, x: ExecId)
    ensures CanRecordFailure(d, t, owner, x) ==> t in d.tasks
  {
  }

  lemma CanResumeKnows(d: Db, t: TaskId, owner: Owner, w: WorkerId)
    ensures CanResume(d, t, owner, w) ==> t in d.tasks
  {
  }

  // In any transaction, every new task row is an admission.
  lemma NewTasksAreAdmitted(d: Db, s: Step, t: TaskId)
    requires Inv(d)
    ensures t !in d.tasks && t in Next(d, s).tasks ==> Admitted(d, s, t, Next(d, s).tasks[t])
  {
    hide Inv, Admitted;
    if Closes(s) { hide Next; ClosingSameTasks(d, s); }
    else if PlanReview(s) { hide Next; DecisionsSpareTasks(d, s); }
    else if AttemptStep(s) { hide Next; AttemptSameTasks(d, s); }
    else if ApplyStep(s) { hide Next; ApplyFrame(d, s); }
    else if IntakeStep(s) { hide Next; IntakeTakes(d, s, t); }
    else { hide Next; OtherFrame(d, s); }
  }

  // In any transaction, every change of a task's status has its cause.
  lemma TaskMovesHaveCauses(d: Db, s: Step, t: TaskId)
    requires Inv(d)
    ensures MovesTask(d, Next(d, s), t) ==> TaskCause(d, s, t, Next(d, s).tasks[t].status)
  {
    if MovesTask(d, Next(d, s), t) {
      if PlanReview(s) { hide Next, Inv, TaskCause; ReviewTaskCause(d, s, t); }
      else if AttemptStep(s) { hide Next, Inv, TaskCause; AttemptTaskCause(d, s, t); }
      else if ApplyStep(s) { hide Next, Inv; ApplyFrame(d, s); }
      else if IntakeStep(s) { hide Next, Inv, Admitted; IntakeTakes(d, s, t); }
      else { hide Next, Inv; OtherFrame(d, s); }
    }
  }
  // ---------- over runs ----------

  lemma {:induction false} AdmissionComesFirst(states: seq<Db>, steps: seq<Step>, j: nat, t: TaskId) returns (i: nat)
    requires Run(states, steps) && j < |states| && t in states[j].tasks
    ensures i < j && t !in states[i].tasks && t in states[i + 1].tasks && Admitted(states[i], steps[i], t, states[i + 1].tasks[t])
    decreases j
  {
    hide Next, Inv, Admitted;
    assert j > 0;
    assert Follows(states, steps, j - 1);
    if t in states[j - 1].tasks {
      i := AdmissionComesFirst(states, steps, j - 1, t);
    } else {
      Reachable(states, steps, j - 1);
      NewTasksAreAdmitted(states[j - 1], steps[j - 1], t);
      i := j - 1;
    }
  }

  lemma SourceStays(states: seq<Db>, steps: seq<Step>, i: nat, j: nat, t: TaskId)
    requires Run(states, steps) && i <= j < |states| && t in states[i].tasks
    ensures t in states[j].tasks && states[j].tasks[t].source == states[i].tasks[t].source
  {
    Later(states, steps, i, j);
    assert TaskMoves(states[i], states[j], t);
  }

  lemma LaterSourceDiffers(states: seq<Db>, steps: seq<Step>, a: nat, b: nat, t: TaskId, u: TaskId)
    requires Run(states, steps) && a < b < |steps| && t in states[a + 1].tasks && u in states[b + 1].tasks
    requires states[b + 1].tasks[u].source.Some? && Admitted(states[b], steps[b], u, states[b + 1].tasks[u])
    ensures states[b + 1].tasks[u].source != states[a + 1].tasks[t].source
  {
    hide Next, WorkerReady, HasApplyTask;
    SourceStays(states, steps, a + 1, b, t);
  }

  // Two admissions by one transaction are one.
  lemma OneAdmissionEach(states: seq<Db>, steps: seq<Step>, a: nat, t: TaskId, u: TaskId)
    requires Run(states, steps) && a < |steps| && t in states[a + 1].tasks && u in states[a + 1].tasks
    requires Admitted(states[a], steps[a], t, states[a + 1].tasks[t]) && Admitted(states[a], steps[a], u, states[a + 1].tasks[u])
    ensures t == u
  {
    hide Next, WorkerReady, HasApplyTask;
    Reachable(states, steps, a + 1);
    assert ApartTasks(states[a + 1], t, u);
  }

  // A message is admitted at most once, however often it is delivered.
  lemma SourceAdmittedOnce(states: seq<Db>, steps: seq<Step>, j: nat, t: TaskId, u: TaskId)
    requires Run(states, steps) && j < |states| && t in states[j].tasks && u in states[j].tasks
    requires states[j].tasks[t].source.Some? && states[j].tasks[t].source == states[j].tasks[u].source
    ensures t == u
  {
    var a := AdmissionComesFirst(states, steps, j, t);
    var b := AdmissionComesFirst(states, steps, j, u);
    hide Next, Admitted;
    SourceStays(states, steps, a + 1, j, t);
    SourceStays(states, steps, b + 1, j, u);
    if a < b { LaterSourceDiffers(states, steps, a, b, t, u); }
    if b < a { LaterSourceDiffers(states, steps, b, a, u, t); }
    if a == b { OneAdmissionEach(states, steps, a, t, u); }
  }
}
