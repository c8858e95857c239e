// Controllers, workers, owners and the clock take turns: any finite sequence of
// transactions from the empty ledger is a run.
module Protocol {
  import opened Options
  import opened FilePlans
  import opened LedgerTypes
  import opened Transactions
  import opened LedgerInvariants
  import opened LedgerProofs
  import opened CalmProofs
  import opened StepProofs
  import opened CreateProofs

  datatype Step =
    | TickStep(now: int)
    | RegisterStep(w: WorkerId)
    | HeartbeatStep(w: WorkerId, closed: bool)
    | SubmitStep(intake: Intake)
    | SubmitApplyStep(intake: Intake, p: PlanId)
    | ApproveAndSubmitStep(intake: Intake, p: PlanId, reviewed: seq<Change>, draft: bool)
    | ApproveStep(p: PlanId, owner: Owner, reviewed: seq<Change>, draft: bool)
    | RevokeStep(p: PlanId, owner: Owner)
    | ProposeStep(p: PlanId, t: TaskId, owner: Owner, changes: seq<Change>, drafted: bool, draft: bool)
    | StartFailureStep(t: TaskId, owner: Owner, x: ExecId)
    | RecoverStep
    | ClaimStep(w: WorkerId, slots: int, t: TaskId, x: ExecId)
    | RenewStep(r: Record)
    | FinishStep(r: Record, outcome: Outcome, question: bool, draftLive: bool)
    | ResumeStep(t: TaskId, owner: Owner, w: WorkerId)
    | CancelStep(t: TaskId, owner: Owner, selected: bool)
    | SettleExpiredStep(ps: seq<PlanId>, ts: seq<TaskId>)
    | BeginStep(r: Record, p: PlanId, owner: Owner, draft: bool, intact: bool)
    | TouchStep(ws: Workspace, draft: bool)
    | MarkStep(ws: Workspace, i: nat)
    | CommitStep(ws: Workspace, draft: bool)
    | FailStep(ws: Workspace)
    | CrashStep(ws: Workspace)
    | ResolveStep(p: PlanId, owner: Owner, complete: bool)
    | ClaimDeliveryStep(t: TaskId, owner: Owner, x: ExecId, attempt: nat)
    | SettleDeliveryStep(x: ExecId, delivered: bool)
    | AcknowledgeStep(t: TaskId, owner: Owner)
    | ResetStep(k: SessionKey)
    | AssessStep(t: TaskId, priority: int)

  // `TouchStep` is one guarded file mutation: it reads the ledger and changes files only.
  ghost function Next(d: Db, s: Step): Db {
    match s
    case TickStep(now) => Tick(d, now)
    case RegisterStep(w) => RegisterWorker(d, w)
    case HeartbeatStep(w, closed) => Heartbeat(d, w, closed)
    case SubmitStep(i) => SubmitRequest(d, i)
    case SubmitApplyStep(i, p) => SubmitApply(d, i, p)
    case ApproveAndSubmitStep(i, p, reviewed, draft) => ApproveAndSubmit(d, i, p, reviewed, draft)
    case ApproveStep(p, owner, reviewed, draft) => ApprovePlan(d, p, owner, reviewed, draft)
    case RevokeStep(p, owner) => RevokePlan(d, p, owner)
    case ProposeStep(p, t, owner, changes, drafted, draft) => ProposePlan(d, p, t, owner, changes, drafted, draft)
    case StartFailureStep(t, owner, x) => StartFailure(d, t, owner, x)
    case RecoverStep => Recover(d)
    case ClaimStep(w, slots, t, x) => ClaimNext(d, w, slots, t, x)
    case RenewStep(r) => Renew(d, r)
    case FinishStep(r, outcome, question, draftLive) => Finish(d, r, outcome, question, draftLive)
    case ResumeStep(t, owner, w) => Resume(d, t, owner, w)
    case CancelStep(t, owner, selected) => CancelTask(d, t, owner, selected)
    case SettleExpiredStep(ps, ts) => SettleExpired(d, ps, ts)
    case BeginStep(r, p, owner, draft, intact) => BeginApply(d, r, p, owner, draft, intact)
    case TouchStep(ws, draft) => d
    case MarkStep(ws, i) => MarkJournal(d, ws, i)
    case CommitStep(ws, draft) => CommitApply(d, ws, draft)
    case FailStep(ws) => FailApply(d, ws)
    case CrashStep(ws) => CrashApply(d, ws)
    case ResolveStep(p, owner, complete) => ResolvePlan(d, p, owner, complete)
    case ClaimDeliveryStep(t, owner, x, attempt) => ClaimDelivery(d, t, owner, x, attempt)
    case SettleDeliveryStep(x, delivered) => SettleDelivery(d, x, delivered)
    case AcknowledgeStep(t, owner) => Acknowledge(d, t, owner)
    case ResetStep(k) => ResetSession(d, k)
    case AssessStep(t, priority) => Assess(d, t, priority)
  }

  predicate IntakeStep(s: Step) { s.SubmitStep? || s.SubmitApplyStep? || s.ApproveAndSubmitStep? || s.ResetStep? || s.AssessStep? }

  predicate PlanReview(s: Step) { s.ApproveStep? || s.RevokeStep? || s.ProposeStep? || s.SettleExpiredStep? || s.ResolveStep? || s.CancelStep? }

  predicate AttemptStep(s: Step) {
    s.StartFailureStep? || s.RecoverStep? || s.ClaimStep? || s.RenewStep? || s.FinishStep? || s.ResumeStep?
  }

  predicate ApplyStep(s: Step) { s.BeginStep? || s.TouchStep? || s.MarkStep? || s.CommitStep? || s.FailStep? || s.CrashStep? }

  lemma IntakeKeeps(d: Db, s: Step)
    requires Inv(d) && IntakeStep(s)
    ensures Keeps(d, Next(d, s))
  {
    hide Keeps, Inv, Tick, RegisterWorker, Heartbeat, SubmitRequest, SubmitApply, ApproveAndSubmit, ApprovePlan, RevokePlan, ProposePlan;
    hide StartFailure, Recover, ClaimNext, Renew, Finish, Resume, CancelTask, SettleExpired, BeginApply, MarkJournal, CommitApply;
    hide FailApply, CrashApply, ResolvePlan, ClaimDelivery, SettleDelivery, Acknowledge, ResetSession, Assess;
    match s {
      case SubmitStep(i) => SubmitKeeps(d, i);
      case SubmitApplyStep(i, p) => SubmitApplyKeeps(d, i, p);
      case ApproveAndSubmitStep(i, p, reviewed, draft) => ApproveAndSubmitKeeps(d, i, p, reviewed, draft);
      case ResetStep(k) => ResetKeeps(d, k);
      case AssessStep(t, priority) => AssessKeeps(d, t, priority);
    }
  }

  lemma ReviewKeeps(d: Db, s: Step)
    requires Inv(d) && PlanReview(s)
    ensures Keeps(d, Next(d, s))
  {
    hide Keeps, Inv, Tick, RegisterWorker, Heartbeat, SubmitRequest, SubmitApply, ApproveAndSubmit, ApprovePlan, RevokePlan, ProposePlan;
    hide StartFailure, Recover, ClaimNext, Renew, Finish, Resume, CancelTask, SettleExpired, BeginApply, MarkJournal, CommitApply;
    hide FailApply, CrashApply, ResolvePlan, ClaimDelivery, SettleDelivery, Acknowledge, ResetSession, Assess;
    match s {
      case ApproveStep(p, owner, reviewed, draft) => ApproveKeeps(d, p, owner, reviewed, draft);
      case RevokeStep(p, owner) => RevokeKeeps(d, p, owner);
      case ProposeStep(p, t, owner, changes, drafted, draft) => ProposeKeeps(d, p, t, owner, changes, drafted, draft);
      case SettleExpiredStep(ps, ts) => SettleExpiredKeeps(d, ps, ts);
      case ResolveStep(p, owner, complete) => ResolveKeeps(d, p, owner, complete);
      case CancelStep(t, owner, selected) => CancelKeeps(d, t, owner, selected);
    }
  }

  lemma AttemptKeeps(d: Db, s: Step)
    requires Inv(d) && AttemptStep(s)
    ensures Keeps(d, Next(d, s))
  {
    hide Keeps, Inv, Tick, RegisterWorker, Heartbeat, SubmitRequest, SubmitApply, ApproveAndSubmit, ApprovePlan, RevokePlan, ProposePlan;
    hide StartFailure, Recover, ClaimNext, Renew, Finish, Resume, CancelTask, SettleExpired, BeginApply, MarkJournal, CommitApply;
    hide FailApply, CrashApply, ResolvePlan, ClaimDelivery, SettleDelivery, Acknowledge, ResetSession, Assess;
    match s {
      case StartFailureStep(t, owner, x) => StartFailureKeeps(d, t, owner, x);
      case RecoverStep => RecoverKeeps(d);
      case ClaimStep(w, slots, t, x) => ClaimNextKeeps(d, w, slots, t, x);
      case RenewStep(r) => RenewKeeps(d, r);
      case FinishStep(r, outcome, question, draftLive) => FinishKeeps(d, r, outcome, question, draftLive);
      case ResumeStep(t, owner, w) => ResumeKeeps(d, t, owner, w);
    }
  }

  lemma ApplyKeeps(d: Db, s: Step)
    requires Inv(d) && ApplyStep(s)
    ensures Keeps(d, Next(d, s))
  {
    hide Keeps, Inv, Tick, RegisterWorker, Heartbeat, SubmitRequest, SubmitApply, ApproveAndSubmit, ApprovePlan, RevokePlan, ProposePlan;
    hide StartFailure, Recover, ClaimNext, Renew, Finish, Resume, CancelTask, SettleExpired, BeginApply, MarkJournal, CommitApply;
    hide FailApply, CrashApply, ResolvePlan, ClaimDelivery, SettleDelivery, Acknowledge, ResetSession, Assess;
    match s {
      case BeginStep(r, p, owner, draft, intact) => BeginKeeps(d, r, p, owner, draft, intact);
      case TouchStep(ws, draft) => KeepsSelf(d);
      case MarkStep(ws, i) => MarkJournalKeeps(d, ws, i);
      case CommitStep(ws, draft) => CommitApplyKeeps(d, ws, draft);
      case FailStep(ws) => FailApplyKeeps(d, ws);
      case CrashStep(ws) => CrashApplyKeeps(d, ws);
    }
  }

  lemma OtherKeeps(d: Db, s: Step)
    requires Inv(d) && !IntakeStep(s) && !PlanReview(s) && !AttemptStep(s) && !ApplyStep(s)
    ensures Keeps(d, Next(d, s))
  {
    hide Keeps, Inv, Tick, RegisterWorker, Heartbeat, SubmitRequest, SubmitApply, ApproveAndSubmit, ApprovePlan, RevokePlan, ProposePlan;
    hide StartFailure, Recover, ClaimNext, Renew, Finish, Resume, CancelTask, SettleExpired, BeginApply, MarkJournal, CommitApply;
    hide FailApply, CrashApply, ResolvePlan, ClaimDelivery, SettleDelivery, Acknowledge, ResetSession, Assess;
    match s {
      case TickStep(now) => TickKeeps(d, now);
      case RegisterStep(w) => RegisterKeeps(d, w);
      case HeartbeatStep(w, closed) => HeartbeatKeeps(d, w, closed);
      case ClaimDeliveryStep(t, owner, x, attempt) => ClaimDeliveryKeeps(d, t, owner, x, attempt);
      case SettleDeliveryStep(x, delivered) => SettleDeliveryKeeps(d, x, delivered);
      case AcknowledgeStep(t, owner) => AcknowledgeKeeps(d, t, owner);
    }
  }

  // Every transaction keeps the invariant and moves every row only forward.
  lemma NextKeeps(d: Db, s: Step)
    requires Inv(d)
    ensures Keeps(d, Next(d, s))
  {
    hide Next;
    if IntakeStep(s) { IntakeKeeps(d, s); }
    else if PlanReview(s) { ReviewKeeps(d, s); }
    else if AttemptStep(s) { AttemptKeeps(d, s); }
    else if ApplyStep(s) { ApplyKeeps(d, s); }
    else { OtherKeeps(d, s); }
  }

  // ---------- runs ----------

  ghost predicate Follows(states: seq<Db>, steps: seq<Step>, i: nat)
    requires |states| == |steps| + 1
  {
    i < |steps| ==> states[i + 1] == Next(states[i], steps[i])
  }

  ghost predicate Run(states: seq<Db>, steps: seq<Step>) {
    && |states| == |steps| + 1 && states[0] == EMPTY
    && forall i: nat {:trigger Follows(states, steps, i)} :: Follows(states, steps, i)
  }

  lemma EmptyInv()
    ensures Inv(EMPTY)
  {
  }

  // The invariant holds in every reachable state.
  lemma {:induction false} Reachable(states: seq<Db>, steps: seq<Step>, i: nat)
    requires Run(states, steps) && i < |states|
    ensures Inv(states[i])
  {
    hide Next, Inv;
    if i == 0 {
      EmptyInv();
    } else {
      Reachable(states, steps, i - 1);
      assert Follows(states, steps, i - 1);
      NextKeeps(states[i - 1], steps[i - 1]);
    }
  }

  // Any later state of a run is an evolution of any earlier one.
  lemma {:induction false} Later(states: seq<Db>, steps: seq<Step>, i: nat, j: nat)
    requires Run(states, steps) && i <= j < |states|
    ensures Evolves(states[i], states[j])
    decreases j
  {
    hide Next, Inv, Evolves;
    Reachable(states, steps, i);
    if i == j {
      KeepsSelf(states[i]);
    } else {
      Later(states, steps, i, j - 1);
      Reachable(states, steps, j - 1);
      assert Follows(states, steps, j - 1);
      NextKeeps(states[j - 1], steps[j - 1]);
      EvolvesTransitive(states[i], states[j - 1], states[j]);
    }
  }
}
