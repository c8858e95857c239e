// Who can move a plan, a task or a claim: for every change of one of these rows, in any
// transaction, what must have held before it.
module Causes {
  import opened Options
  import opened FilePlans
  import opened LedgerTypes
  import opened Transactions
  import opened LedgerInvariants
  import opened Protocol
  import opened Frames
  import opened Safety

  // ---------- plans ----------

  // No process applies files in the plan's workspace, and no attempt of its request or of a
  // child of the request holds a live claim.
  ghost predicate Quiet(d: Db, p: PlanId)
    requires p in d.plans
  {
    && d.plans[p].workspace !in d.locks
    && forall t | t in d.claims && t in d.tasks && LiveClaim(d, t) :: t != d.plans[p].task && d.tasks[t].parent != Some(d.plans[p].task)
  }

  // What justifies the step moving plan `p` into status `b`.
  ghost predicate PlanCause(d: Db, s: Step, p: PlanId, b: PlanStatus)
    requires p in d.plans
  {
    var q := d.plans[p];
    match b
    case PlanPending => false
    // The owner approves exactly what was reviewed, in time, for a request that still wants it.
    case PlanApproved =>
      && q.status.PlanPending? && q.expires > d.clock
      && q.task in d.tasks && Receptive(d.tasks[q.task].status)
      && ((s.ApproveStep? && s.p == p && s.owner == q.owner && s.reviewed == q.hash)
          || (s.ApproveAndSubmitStep? && s.p == p && s.intake.owner == q.owner && s.reviewed == q.hash && !HasApplyTask(d, p)))
    // The claimed apply begins, with every preimage intact and the workspace free.
    case PlanApplying =>
      && s.BeginStep? && s.p == p && s.intact && MayTouch(d, Holder(s.r, p, s.owner), PlanApproved, s.draft)
      && q.workspace !in d.locks && !exists o | o in d.plans :: o != p && d.plans[o].workspace == q.workspace && HeldPlan(d.plans[o].status)
    case PlanUncertain => s.FailStep? && s.ws in d.locks && d.locks[s.ws].plan == p
    case PlanApplied =>
      || (s.CommitStep? && s.ws in d.locks && d.locks[s.ws].plan == p && MayTouch(d, d.locks[s.ws], PlanApplying, s.draft))
      || (s.ResolveStep? && s.p == p && s.owner == q.owner && s.complete && HeldPlan(q.status) && Quiet(d, p))
    case PlanReconciled => s.ResolveStep? && s.p == p && s.owner == q.owner && !s.complete && (HeldPlan(q.status) || q.status.PlanApplied?) && Quiet(d, p)
    case PlanRevoked =>
      && OpenPlan(q.status)
      && ((s.RevokeStep? && s.p == p && s.owner == q.owner)
          || (s.CancelStep? && s.t == q.task && s.t in d.tasks && d.tasks[s.t].owner == s.owner)
          || (s.ProposeStep? && s.t == q.task && s.t in d.tasks && d.tasks[s.t].owner == s.owner))
    case PlanExpired => OpenPlan(q.status) && q.expires <= d.clock && s.SettleExpiredStep?
  }

  lemma {:induction false} ExpirePlansPlans(d: Db, ps: seq<PlanId>, p: PlanId)
    requires p in d.plans
    ensures var e := ExpirePlans(d, ps);
      p in e.plans && (e.plans[p] == d.plans[p] || (p in ps && OpenPlan(d.plans[p].status) && e.plans[p] == d.plans[p].(status := PlanExpired)))
    decreases |ps|
  {
    hide Settle;
    if ps != [] {
      var d1 := ExpirePlan(d, ps[0]);
      if ps[0] in d.plans { SettleFrame(SetPlan(d, ps[0], PlanExpired), d.plans[ps[0]].task); }
      ExpirePlansPlans(d1, ps[1..], p);
    }
  }

  lemma SettleExpiredPlans(d: Db, ps: seq<PlanId>, ts: seq<TaskId>, p: PlanId)
    requires p in d.plans
    ensures var e := SettleExpired(d, ps, ts);
      p in e.plans && (e.plans[p] == d.plans[p] || (ExpiredPlan(d, p) && e.plans[p].status.PlanExpired?))
  {
    hide ExpirePlans, SettleAll, StaleReview;
    var due := set q | q in d.plans && ExpiredPlan(d, q);
    if Enumerates(ps, due) {
      ExpirePlansPlans(d, ps, p);
      SettleAllFrame(ExpirePlans(d, ps), ts);
      if p in ps {
        assert p in (set q | q in ps);
        assert p in due;
      }
    }
  }

  lemma RevokedPlans(d: Db, p: PlanId, owner: Owner)
    ensures var e := RevokePlan(d, p, owner);
      e.plans == if p in d.plans && d.plans[p].owner == owner && OpenPlan(d.plans[p].status)
                 then d.plans[p := d.plans[p].(status := PlanRevoked)] else d.plans
  {
    hide Settle;
    if p in d.plans { SettleFrame(SetPlan(d, p, PlanRevoked), d.plans[p].task); }
  }

  lemma CancelledPlans(d: Db, t: TaskId, owner: Owner, selected: bool)
    ensures var e := CancelTask(d, t, owner, selected);
      e.plans == if CancelActs(d, t, owner, selected) then RevokeOpen(d.plans, t) else d.plans
  {
    hide Unresolved, Withdraw, CloseTask, RevokeOpen;
    if CancelActs(d, t, owner, selected) {
      var w := Withdraw(d, t);
      WithdrawnPlans(d, t);
      WithdrawKeepsRow(d, t);
      if Stoppable(d, t) {} else { CloseTaskFrame(w, t, Unresolved(w, t, true)); }
    }
  }

  lemma WithdrawnPlans(d: Db, t: TaskId)
    ensures Withdraw(d, t).plans == RevokeOpen(d.plans, t)
  {
    hide StopTasks, StopExecs, RevokedChildren;
  }

  lemma AdmittedPlans(d: Db, i: Intake, p: PlanId, reviewed: seq<Change>, draft: bool)
    ensures var e := ApproveAndSubmit(d, i, p, reviewed, draft);
      e.plans == d.plans || (!HasApplyTask(d, p) && CanApprove(d, p, i.owner, reviewed, draft) && e.plans == d.plans[p := d.plans[p].(status := PlanApproved)])
  {
    hide CanSubmitApply, HasApplyTask;
    if !HasApplyTask(d, p) && CanApprove(d, p, i.owner, reviewed, draft) {
      var d1 := SetPlan(d, p, PlanApproved);
      assert ApprovePlan(d, p, i.owner, reviewed, draft) == d1;
      if CanSubmitApply(d1, i.(workspace := d.plans[p].workspace, source := None), p) {}
    }
  }

  // The step moves plan `p` of ledger `d` into the status it has in `e`.
  ghost predicate MovesPlan(d: Db, e: Db, p: PlanId) {
    p in d.plans && p in e.plans && e.plans[p].status != d.plans[p].status
  }

  lemma BeginPlans(d: Db, r: Record, o: PlanId, owner: Owner, draft: bool, intact: bool)
    ensures var e := BeginApply(d, r, o, owner, draft, intact);
      e.plans == if CanBegin(d, r, o, owner, draft, intact) then d.plans[o := d.plans[o].(status := PlanApplying)] else d.plans
  {
    hide Owns, JournalOf;
    if CanBegin(d, r, o, owner, draft, intact) {}
  }

  lemma CommitPlans(d: Db, ws: Workspace, draft: bool)
    ensures var e := CommitApply(d, ws, draft);
      e.plans == if ws in d.locks && MayTouch(d, d.locks[ws], PlanApplying, draft)
                 then d.plans[d.locks[ws].plan := d.plans[d.locks[ws].plan].(status := PlanApplied)] else d.plans
  {
    hide Owns;
    if ws in d.locks && MayTouch(d, d.locks[ws], PlanApplying, draft) {}
  }

  lemma FailPlans(d: Db, ws: Workspace)
    ensures var e := FailApply(d, ws);
      e.plans == if ws in d.locks && d.locks[ws].plan in d.plans
                 then d.plans[d.locks[ws].plan := d.plans[d.locks[ws].plan].(status := PlanUncertain)] else d.plans
  {
    if ws in d.locks && d.locks[ws].plan in d.plans {}
  }

  lemma ResolvedPlans(d: Db, o: PlanId, owner: Owner, complete: bool)
    ensures var e := ResolvePlan(d, o, owner, complete);
      e.plans == if CanResolve(d, o, owner)
                 then d.plans[o := d.plans[o].(status := if complete then PlanApplied else PlanReconciled)] else d.plans
    ensures CanResolve(d, o, owner) ==>
      o in d.plans && d.plans[o].owner == owner && Quiet(d, o) && (HeldPlan(d.plans[o].status) || d.plans[o].status.PlanApplied?)
  {
    hide Verdict, ResolvedExecs, LiveClaim;
    if CanResolve(d, o, owner) {}
  }

  lemma ProposedPlans(d: Db, o: PlanId, t: TaskId, owner: Owner, changes: seq<Change>, drafted: bool, draft: bool)
    ensures var e := ProposePlan(d, o, t, owner, changes, drafted, draft);
      if CanPropose(d, o, t, owner, changes, draft)
      then o in e.plans && e.plans == RevokeOpen(d.plans, t)[o := e.plans[o]] else e.plans == d.plans
  {
    hide ValidPlan, RevokeOpen;
    if CanPropose(d, o, t, owner, changes, draft) {}
  }

  lemma ApprovedPlans(d: Db, o: PlanId, owner: Owner, reviewed: seq<Change>, draft: bool)
    ensures var e := ApprovePlan(d, o, owner, reviewed, draft);
      e.plans == if CanApprove(d, o, owner, reviewed, draft) then d.plans[o := d.plans[o].(status := PlanApproved)] else d.plans
  {
    if CanApprove(d, o, owner, reviewed, draft) {}
  }

  lemma ReviewPlanCause(d: Db, s: Step, p: PlanId)
    requires PlanReview(s) && MovesPlan(d, Next(d, s), p)
    ensures PlanCause(d, s, p, Next(d, s).plans[p].status)
  {
    hide Tick, RegisterWorker, Heartbeat, SubmitRequest, SubmitApply, ApproveAndSubmit, ApprovePlan, RevokePlan, ProposePlan;
    hide StartFailure, Recover, ClaimNext, Renew, Finish, Resume, CancelTask, SettleExpired, BeginApply, MarkJournal, CommitApply;
    hide FailApply, CrashApply, ResolvePlan, ClaimDelivery, SettleDelivery, Acknowledge, ResetSession, Assess;
    hide CanResolve, Unresolved, Quiet, ValidPlan;
    match s {
      case RevokeStep(o, owner) => RevokedPlans(d, o, owner);
      case SettleExpiredStep(ps, ts) => SettleExpiredPlans(d, ps, ts, p);
      case CancelStep(t, owner, selected) => CancelledPlans(d, t, owner, selected);
      case ResolveStep(o, owner, complete) => ResolvedPlans(d, o, owner, complete);
      case ApproveStep(o, owner, reviewed, draft) => ApprovedPlans(d, o, owner, reviewed, draft);
      case ProposeStep(o, t, owner, changes, drafted, draft) => ProposedPlans(d, o, t, owner, changes, drafted, draft);
    }
  }

  lemma ApplyPlanCause(d: Db, s: Step, p: PlanId)
    requires ApplyStep(s) && MovesPlan(d, Next(d, s), p)
    ensures PlanCause(d, s, p, Next(d, s).plans[p].status)
  {
    hide Tick, RegisterWorker, Heartbeat, SubmitRequest, SubmitApply, ApproveAndSubmit, ApprovePlan, RevokePlan, ProposePlan;
    hide StartFailure, Recover, ClaimNext, Renew, Finish, Resume, CancelTask, SettleExpired, BeginApply, MarkJournal, CommitApply;
    hide FailApply, CrashApply, ResolvePlan, ClaimDelivery, SettleDelivery, Acknowledge, ResetSession, Assess;
    hide MayTouch;
    match s {
      case BeginStep(r, o, owner, draft, intact) => BeginPlans(d, r, o, owner, draft, intact);
      case CommitStep(ws, draft) => CommitPlans(d, ws, draft);
      case FailStep(ws) => FailPlans(d, ws);
      case MarkStep(ws, i) => MarkFrame(d, ws, i);
      case CrashStep(ws) => CrashFrame(d, ws);
      case TouchStep(ws, draft) =>
    }
  }

  lemma IntakePlanCause(d: Db, s: Step, p: PlanId)
    requires IntakeStep(s) && MovesPlan(d, Next(d, s), p)
    ensures PlanCause(d, s, p, Next(d, s).plans[p].status)
  {
    hide Tick, RegisterWorker, Heartbeat, SubmitRequest, SubmitApply, ApproveAndSubmit, ApprovePlan, RevokePlan, ProposePlan;
    hide StartFailure, Recover, ClaimNext, Renew, Finish, Resume, CancelTask, SettleExpired, BeginApply, MarkJournal, CommitApply;
    hide FailApply, CrashApply, ResolvePlan, ClaimDelivery, SettleDelivery, Acknowledge, ResetSession, Assess;
    hide HasApplyTask;
    match s {
      case SubmitStep(i) => SubmitFrame(d, i);
      case SubmitApplyStep(i, o) => SubmitApplyFrame(d, i, o);
      case ApproveAndSubmitStep(i, o, reviewed, draft) => AdmittedPlans(d, i, o, reviewed, draft);
      case ResetStep(k) => ResetFrame(d, k);
      case AssessStep(t, priority) => AssessFrame(d, t, priority);
    }
  }

  // In any transaction, every change of a plan's status has its cause.
  lemma PlanMovesHaveCauses(d: Db, s: Step, p: PlanId)
    ensures MovesPlan(d, Next(d, s), p) ==> PlanCause(d, s, p, Next(d, s).plans[p].status)
  {
    hide Next, PlanCause;
    if MovesPlan(d, Next(d, s), p) {
      if PlanReview(s) { ReviewPlanCause(d, s, p); }
      else if ApplyStep(s) { ApplyPlanCause(d, s, p); }
      else if AttemptStep(s) { AttemptFrame(d, s); }
      else if IntakeStep(s) { IntakePlanCause(d, s, p); }
      else { OtherFrame(d, s); }
    }
  }

  // ---------- new plans ----------

  // A plan row appears only as its request's owner's valid proposal, approved at once only
  // where the policy applies changes without review.
  ghost predicate Proposed(d: Db, s: Step, p: PlanId, row: Plan) {
    && s.ProposeStep? && s.p == p && s.t in d.tasks && s.owner == d.tasks[s.t].owner && d.tasks[s.t].kind.Request? && ValidPlan(s.changes)
    && row == Plan(s.t, s.owner, d.tasks[s.t].workspace, s.changes, s.changes, row.status, d.clock + PLAN_SECONDS, d.clock)
    && row.status == if !s.drafted && CreatesOnly(s.changes) then PlanApproved else PlanPending
  }

  lemma NewPlansAreProposed(d: Db, s: Step, p: PlanId)
    ensures p !in d.plans && p in Next(d, s).plans ==> Proposed(d, s, p, Next(d, s).plans[p])
  {
    hide ValidPlan;
    if p !in d.plans && p in Next(d, s).plans {
      if PlanReview(s) { NewPlanReviewed(d, s, p); }
      else if ApplyStep(s) { NewPlanApplied(d, s, p); }
      else if AttemptStep(s) { hide Next; AttemptFrame(d, s); }
      else if IntakeStep(s) { NewPlanTaken(d, s, p); }
      else { hide Next; OtherFrame(d, s); }
    }
  }

  lemma NewPlanReviewed(d: Db, s: Step, p: PlanId)
    requires PlanReview(s) && p !in d.plans && p in Next(d, s).plans
    ensures Proposed(d, s, p, Next(d, s).plans[p])
  {
    hide Tick, RegisterWorker, Heartbeat, SubmitRequest, SubmitApply, ApproveAndSubmit, ApprovePlan, RevokePlan, ProposePlan;
    hide StartFailure, Recover, ClaimNext, Renew, Finish, Resume, CancelTask, SettleExpired, BeginApply, MarkJournal, CommitApply;
    hide FailApply, CrashApply, ResolvePlan, ClaimDelivery, SettleDelivery, Acknowledge, ResetSession, Assess;
    hide CanResolve, Unresolved, ValidPlan;
    match s {
      case RevokeStep(o, owner) => RevokedPlans(d, o, owner);
      case SettleExpiredStep(ps, ts) => SettleExpiredSamePlans(d, ps, ts);
      case CancelStep(t, owner, selected) => CancelledPlans(d, t, owner, selected);
      case ResolveStep(o, owner, complete) => ResolvedPlans(d, o, owner, complete);
      case ApproveStep(o, owner, reviewed, draft) => ApprovedPlans(d, o, owner, reviewed, draft);
      case ProposeStep(o, t, owner, changes, drafted, draft) => ProposedRow(d, o, t, owner, changes, drafted, draft, p);
    }
  }

  lemma ProposedRow(d: Db, o: PlanId, t: TaskId, owner: Owner, changes: seq<Change>, drafted: bool, draft: bool, p: PlanId)
    requires p !in d.plans && p in ProposePlan(d, o, t, owner, changes, drafted, draft).plans
    ensures Proposed(d, ProposeStep(o, t, owner, changes, drafted, draft), p, ProposePlan(d, o, t, owner, changes, drafted, draft).plans[p])
  {
    hide ValidPlan;
    if CanPropose(d, o, t, owner, changes, draft) {}
  }

  lemma SettleExpiredSamePlans(d: Db, ps: seq<PlanId>, ts: seq<TaskId>)
    ensures SettleExpired(d, ps, ts).plans.Keys == d.plans.Keys
  {
    hide ExpirePlans, SettleAll, Enumerates, StaleReview, ExpiredPlan;
    ExpireSamePlans(d, ps);
    SettleAllFrame(ExpirePlans(d, ps), ts);
  }

  lemma {:induction false} ExpireSamePlans(d: Db, ps: seq<PlanId>)
    ensures ExpirePlans(d, ps).plans.Keys == d.plans.Keys
    decreases |ps|
  {
    hide Settle;
    if ps != [] {
      if ps[0] in d.plans { SettleFrame(SetPlan(d, ps[0], PlanExpired), d.plans[ps[0]].task); }
      ExpireSamePlans(ExpirePlan(d, ps[0]), ps[1..]);
    }
  }

  lemma NewPlanApplied(d: Db, s: Step, p: PlanId)
    requires ApplyStep(s)
    ensures p in Next(d, s).plans ==> p in d.plans
  {
    hide Tick, RegisterWorker, Heartbeat, SubmitRequest, SubmitApply, ApproveAndSubmit, ApprovePlan, RevokePlan, ProposePlan;
    hide StartFailure, Recover, ClaimNext, Renew, Finish, Resume, CancelTask, SettleExpired, BeginApply, MarkJournal, CommitApply;
    hide FailApply, CrashApply, ResolvePlan, ClaimDelivery, SettleDelivery, Acknowledge, ResetSession, Assess;
    hide MayTouch;
    match s {
      case BeginStep(r, o, owner, draft, intact) =>
        BeginPlans(d, r, o, owner, draft, intact);
        BegunIsKnown(d, r, o, owner, draft, intact);
      case CommitStep(ws, draft) =>
        CommitPlans(d, ws, draft);
        if ws in d.locks { TouchedIsKnown(d, d.locks[ws], PlanApplying, draft); }
      case FailStep(ws) => FailPlans(d, ws);
      case MarkStep(ws, i) => MarkFrame(d, ws, i);
      case CrashStep(ws) => CrashFrame(d, ws);
      case TouchStep(ws, draft) =>
    }
  }

  lemma TouchedIsKnown(d: Db, h: Holder, expected: PlanStatus, draft: bool)
    ensures MayTouch(d, h, expected, draft) ==> h.plan in d.plans && d.plans[h.plan].status == expected
  {
  }

  lemma BegunIsKnown(d: Db, r: Record, o: PlanId, owner: Owner, draft: bool, intact: bool)
    ensures CanBegin(d, r, o, owner, draft, intact) ==> o in d.plans && d.plans[o].status.PlanApproved?
  {
  }

  lemma NewPlanTaken(d: Db, s: Step, p: PlanId)
    requires IntakeStep(s)
    ensures p in Next(d, s).plans ==> p in d.plans
  {
    hide Tick, RegisterWorker, Heartbeat, SubmitRequest, SubmitApply, ApproveAndSubmit, ApprovePlan, RevokePlan, ProposePlan;
    hide StartFailure, Recover, ClaimNext, Renew, Finish, Resume, CancelTask, SettleExpired, BeginApply, MarkJournal, CommitApply;
    hide FailApply, CrashApply, ResolvePlan, ClaimDelivery, SettleDelivery, Acknowledge, ResetSession, Assess;
    hide HasApplyTask;
    match s {
      case SubmitStep(i) => SubmitFrame(d, i);
      case SubmitApplyStep(i, o) => SubmitApplyFrame(d, i, o);
      case ApproveAndSubmitStep(i, o, reviewed, draft) => AdmittedPlans(d, i, o, reviewed, draft);
      case ResetStep(k) => ResetFrame(d, k);
      case AssessStep(t, priority) => AssessFrame(d, t, priority);
    }
  }

  // ---------- provenance over runs ----------

  // The owner approves exactly these changes, or proposes them as creations only.
  predicate Reviews(s: Step, p: PlanId, owner: Owner, changes: seq<Change>) {
    || (s.ApproveStep? && s.p == p && s.owner == owner && s.reviewed == changes)
    || (s.ApproveAndSubmitStep? && s.p == p && s.intake.owner == owner && s.reviewed == changes)
    || (s.ProposeStep? && s.p == p && s.owner == owner && s.changes == changes && !s.drafted && CreatesOnly(changes))
  }

  // The step is the timely consent to plan `p` as it now stands.
  ghost predicate Consents(d: Db, s: Step, p: PlanId) {
    p in Next(d, s).plans && var q := Next(d, s).plans[p]; Reviews(s, p, q.owner, q.changes) && d.clock < q.expires
  }

  ghost predicate Begins(d: Db, s: Step, p: PlanId) {
    p in d.plans && d.plans[p].status.PlanApproved? && d.clock < d.plans[p].expires && s.BeginStep? && s.p == p && s.intact
  }

  predicate Consented(s: PlanStatus) { s.PlanApproved? || BegunPlan(s) }

  // Each cause of a later status rests on an earlier one.
  lemma CausesChain(d: Db, s: Step, p: PlanId, b: PlanStatus)
    requires Inv(d) && p in d.plans && PlanCause(d, s, p, b)
    ensures Consented(b) ==> Consented(d.plans[p].status) || (Reviews(s, p, d.plans[p].owner, d.plans[p].changes) && d.clock < d.plans[p].expires)
    ensures BegunPlan(b) ==> BegunPlan(d.plans[p].status) || Begins(d, s, p)
  {
    hide Quiet;
    assert PlanRow(d, p);
    if b.PlanUncertain? { assert LockRow(d, s.ws); }
  }

  lemma PlanStays(d: Db, s: Step, p: PlanId)
    requires Inv(d) && p in d.plans
    ensures p in Next(d, s).plans && PlanStep(d.plans[p], Next(d, s).plans[p])
  {
    hide Next;
    NextKeeps(d, s);
    assert PlanRowMoves(d, Next(d, s), p);
  }

  // One step earlier, a consented plan was consented already or is being consented now.
  lemma ConsentNow(d: Db, s: Step, p: PlanId)
    requires Inv(d) && p in Next(d, s).plans && Consented(Next(d, s).plans[p].status)
    ensures (p in d.plans && Consented(d.plans[p].status)) || Consents(d, s, p)
  {
    hide Next, Inv, PlanCause, ValidPlan;
    NewPlansAreProposed(d, s, p);
    if p in d.plans { PlanStays(d, s, p); }
    if MovesPlan(d, Next(d, s), p) {
      PlanMovesHaveCauses(d, s, p);
      CausesChain(d, s, p, Next(d, s).plans[p].status);
    }
  }

  lemma BeginNow(d: Db, s: Step, p: PlanId)
    requires Inv(d) && p in Next(d, s).plans && BegunPlan(Next(d, s).plans[p].status)
    ensures (p in d.plans && BegunPlan(d.plans[p].status)) || Begins(d, s, p)
  {
    hide Next, Inv, PlanCause, ValidPlan;
    NewPlansAreProposed(d, s, p);
    if MovesPlan(d, Next(d, s), p) {
      PlanMovesHaveCauses(d, s, p);
      CausesChain(d, s, p, Next(d, s).plans[p].status);
    }
  }

  lemma {:induction false} ConsentComesFirst(states: seq<Db>, steps: seq<Step>, j: nat, p: PlanId) returns (i: nat)
    requires Run(states, steps) && j < |states| && p in states[j].plans && Consented(states[j].plans[p].status)
    ensures i < j && Consents(states[i], steps[i], p)
    decreases j
  {
    hide Next, Inv, Consents;
    assert j > 0;
    assert Follows(states, steps, j - 1);
    Reachable(states, steps, j - 1);
    ConsentNow(states[j - 1], steps[j - 1], p);
    if p in states[j - 1].plans && Consented(states[j - 1].plans[p].status) {
      i := ConsentComesFirst(states, steps, j - 1, p);
    } else {
      i := j - 1;
    }
  }

  lemma {:induction false} BeginComesFirst(states: seq<Db>, steps: seq<Step>, j: nat, p: PlanId) returns (i: nat)
    requires Run(states, steps) && j < |states| && p in states[j].plans && BegunPlan(states[j].plans[p].status)
    ensures i < j && Begins(states[i], steps[i], p)
    decreases j
  {
    hide Next, Inv, Begins;
    assert j > 0;
    assert Follows(states, steps, j - 1);
    Reachable(states, steps, j - 1);
    BeginNow(states[j - 1], steps[j - 1], p);
    if p in states[j - 1].plans && BegunPlan(states[j - 1].plans[p].status) {
      i := BeginComesFirst(states, steps, j - 1, p);
    } else {
      i := j - 1;
    }
  }

  // No file changes without consent: before any mutation of a plan's files the run holds a
  // begin of that plan with every preimage intact and, before that, the timely consent to
  // exactly these changes; only plans that create files need no approval by the owner.
  lemma TouchesWereReviewed(states: seq<Db>, steps: seq<Step>, j: nat, p: PlanId) returns (i: nat, k: nat)
    requires Run(states, steps) && j < |steps| && Touches(states[j], steps[j], p)
    ensures i < k < j && Begins(states[k], steps[k], p)
    ensures p in states[j].plans && var q := states[j].plans[p];
      Reviews(steps[i], p, q.owner, q.changes) && states[i].clock < q.expires && states[k].clock < q.expires
  {
    hide Next, Inv, MayTouch;
    TouchedIsKnown(states[j], states[j].locks[steps[j].ws], PlanApplying, steps[j].draft);
    k := BeginComesFirst(states, steps, j, p);
    i := ConsentComesFirst(states, steps, k, p);
    assert Follows(states, steps, i);
    Later(states, steps, i + 1, j);
    Later(states, steps, k, j);
    assert PlanRowMoves(states[i + 1], states[j], p) && PlanRowMoves(states[k], states[j], p);
  }
}
