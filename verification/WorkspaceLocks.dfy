// A workspace lock is changed only by the process that holds it.
module WorkspaceLocks {
  import opened Options
  import opened FilePlans
  import opened LedgerTypes
  import opened Transactions
  import opened LedgerInvariants
  import opened LedgerProofs
  import opened Protocol
  import opened Frames
  import opened Controllers
  import LedgerStore

  // The step is not one of the lock holder's own.
  predicate Foreign(s: Step, ws: Workspace) {
    match s
    case MarkStep(w, i) => w != ws
    case CommitStep(w, draft) => w != ws
    case FailStep(w) => w != ws
    case CrashStep(w) => w != ws
    case _ => true
  }

  predicate AllForeign(moves: seq<Step>, ws: Workspace) { forall i :: 0 <= i < |moves| ==> Foreign(moves[i], ws) }

  ghost predicate Holds(d: Db, ws: Workspace, h: Holder) { ws in d.locks && d.locks[ws] == h }

  // A plan cannot begin on a workspace whose lock is taken.
  lemma BeginKeepsLock(d: Db, r: Record, p: PlanId, owner: Owner, draft: bool, intact: bool, ws: Workspace, h: Holder)
    requires Holds(d, ws, h)
    ensures Holds(BeginApply(d, r, p, owner, draft, intact), ws, h)
  {
    hide MayTouch, JournalOf;
    if CanBegin(d, r, p, owner, draft, intact) { LedgerStore.BeginnablePlan(d, r, p, owner, draft, intact); }
  }

  lemma EndingKeepsLock(d: Db, other: Workspace, draft: bool, ws: Workspace, h: Holder)
    requires Holds(d, ws, h) && other != ws
    ensures Holds(CommitApply(d, other, draft), ws, h) && Holds(FailApply(d, other), ws, h) && Holds(CrashApply(d, other), ws, h)
  {
    hide Owns;
    if other in d.locks && MayTouch(d, d.locks[other], PlanApplying, draft) {}
  }

  lemma ApplyKeepsLock(d: Db, s: Step, ws: Workspace, h: Holder)
    requires ApplyStep(s) && Foreign(s, ws) && Holds(d, ws, h)
    ensures Holds(Next(d, s), ws, h)
  {
    hide Tick, RegisterWorker, Heartbeat, SubmitRequest, SubmitApply, ApproveAndSubmit, ApprovePlan, RevokePlan, ProposePlan;
    hide StartFailure, Recover, ClaimNext, Renew, Finish, Resume, CancelTask, SettleExpired, BeginApply, MarkJournal, CommitApply;
    hide FailApply, CrashApply, ResolvePlan, ClaimDelivery, SettleDelivery, Acknowledge, ResetSession, Assess;
    match s {
      case BeginStep(r, p, owner, draft, intact) => BeginKeepsLock(d, r, p, owner, draft, intact, ws, h);
      case CommitStep(w, draft) => EndingKeepsLock(d, w, draft, ws, h);
      case FailStep(w) => EndingKeepsLock(d, w, false, ws, h);
      case CrashStep(w) => EndingKeepsLock(d, w, false, ws, h);
      case MarkStep(w, i) => MarkFrame(d, w, i);
      case TouchStep(w, draft) =>
    }
  }

  lemma ForeignKeepsLock(d: Db, s: Step, ws: Workspace, h: Holder)
    requires Foreign(s, ws) && Holds(d, ws, h)
    ensures Holds(Next(d, s), ws, h)
  {
    if IntakeStep(s) { IntakeFrame(d, s); }
    else if PlanReview(s) { ReviewFrame(d, s); }
    else if AttemptStep(s) { AttemptFrame(d, s); }
    else if ApplyStep(s) { ApplyKeepsLock(d, s, ws, h); }
    else { OtherFrame(d, s); }
  }

  lemma {:induction false} OthersKeepLock(d: Db, moves: seq<Step>, ws: Workspace, h: Holder)
    requires AllForeign(moves, ws) && Holds(d, ws, h)
    ensures Holds(After(d, moves), ws, h)
  {
    hide Next, Foreign, Holds;
    if moves != [] {
      OthersKeepLock(d, moves[..|moves| - 1], ws, h);
      ForeignKeepsLock(After(d, moves[..|moves| - 1]), moves[|moves| - 1], ws, h);
    }
  }

  // ---------- the journal of the plan being applied ----------

  // The journal rows of a plan, with their marks.
  function Progress(d: Db, p: PlanId): seq<JournalRow> { if p in d.journal then d.journal[p] else [] }

  lemma HeldIsJournaled(d: Db, ws: Workspace, h: Holder)
    requires Inv(d) && Holds(d, ws, h)
    ensures h.plan in d.plans && h.plan in d.journal && d.plans[h.plan].workspace == ws
    ensures |Progress(d, h.plan)| == |d.plans[h.plan].changes|
  {
    assert LockRow(d, ws) && PlanRow(d, h.plan);
  }

  lemma BeginKeepsProgress(d: Db, r: Record, p: PlanId, owner: Owner, draft: bool, intact: bool, q: PlanId)
    requires q in d.journal
    ensures Progress(BeginApply(d, r, p, owner, draft, intact), q) == Progress(d, q)
  {
    hide MayTouch, JournalOf;
    if CanBegin(d, r, p, owner, draft, intact) { LedgerStore.BeginnablePlan(d, r, p, owner, draft, intact); }
  }

  lemma MarkKeepsProgress(d: Db, other: Workspace, i: nat, ws: Workspace, h: Holder)
    requires Inv(d) && Holds(d, ws, h) && other != ws
    ensures Progress(MarkJournal(d, other, i), h.plan) == Progress(d, h.plan)
  {
    HeldIsJournaled(d, ws, h);
    if other in d.locks { HeldIsJournaled(d, other, d.locks[other]); }
    hide Inv;
  }

  lemma EndingSparesJournal(d: Db, s: Step)
    requires s.CommitStep? || s.FailStep? || s.CrashStep? || s.TouchStep?
    ensures Next(d, s).journal == d.journal
  {
    hide Tick, RegisterWorker, Heartbeat, SubmitRequest, SubmitApply, ApproveAndSubmit, ApprovePlan, RevokePlan, ProposePlan;
    hide StartFailure, Recover, ClaimNext, Renew, Finish, Resume, CancelTask, SettleExpired, BeginApply, MarkJournal, CommitApply;
    hide FailApply, CrashApply, ResolvePlan, ClaimDelivery, SettleDelivery, Acknowledge, ResetSession, Assess;
    match s {
      case CommitStep(w, draft) => CommitFrame(d, w, draft);
      case FailStep(w) => FailFrame(d, w);
      case CrashStep(w) => CrashFrame(d, w);
      case TouchStep(w, draft) =>
    }
  }

  lemma ApplyKeepsProgress(d: Db, s: Step, ws: Workspace, h: Holder)
    requires Inv(d) && ApplyStep(s) && Foreign(s, ws) && Holds(d, ws, h)
    ensures Progress(Next(d, s), h.plan) == Progress(d, h.plan)
  {
    HeldIsJournaled(d, ws, h);
    hide Inv, Holds;
    if s.BeginStep? {
      BeginKeepsProgress(d, s.r, s.p, s.owner, s.draft, s.intact, h.plan);
      assert Next(d, s) == BeginApply(d, s.r, s.p, s.owner, s.draft, s.intact);
    } else if s.MarkStep? {
      MarkKeepsProgress(d, s.ws, s.i, ws, h);
      assert Next(d, s) == MarkJournal(d, s.ws, s.i);
    } else {
      EndingSparesJournal(d, s);
    }
    hide Next, Progress;
    if s.BeginStep? {} else if s.MarkStep? {} else { SameJournal(d, Next(d, s), h.plan); }
  }

  lemma SameJournal(d: Db, e: Db, p: PlanId)
    requires e.journal == d.journal
    ensures Progress(e, p) == Progress(d, p)
  {
  }

  // Only the holder of the lock marks journal rows of the plan it applies.
  lemma ForeignKeepsProgress(d: Db, s: Step, ws: Workspace, h: Holder)
    requires Inv(d) && Foreign(s, ws) && Holds(d, ws, h)
    ensures Progress(Next(d, s), h.plan) == Progress(d, h.plan)
  {
    hide Next, Inv;
    if IntakeStep(s) { IntakeFrame(d, s); }
    else if PlanReview(s) { ReviewFrame(d, s); }
    else if AttemptStep(s) { AttemptFrame(d, s); }
    else if ApplyStep(s) { ApplyKeepsProgress(d, s, ws, h); }
    else { OtherFrame(d, s); }
  }

  lemma {:induction false} OthersKeepProgress(d: Db, moves: seq<Step>, ws: Workspace, h: Holder)
    requires Inv(d) && AllForeign(moves, ws) && Holds(d, ws, h)
    ensures Inv(After(d, moves)) && Progress(After(d, moves), h.plan) == Progress(d, h.plan)
  {
    hide Next, Foreign, Holds, Inv, Progress;
    if moves != [] {
      var first, s := moves[..|moves| - 1], moves[|moves| - 1];
      OthersKeepProgress(d, first, ws, h);
      OthersKeepLock(d, first, ws, h);
      NextKeeps(After(d, first), s);
      ForeignKeepsProgress(After(d, first), s, ws, h);
    }
  }
}
