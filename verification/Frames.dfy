// Which tables each group of transactions leaves alone.
module Frames {
  import opened Options
  import opened FilePlans
  import opened LedgerTypes
  import opened Transactions
  import opened Protocol

  // ---------- closing plans ----------

  lemma SettleFormsFrame(d: Db, t: TaskId, uncertain: bool)
    requires t in d.tasks
    ensures var e := SettleEnded(d, t, uncertain); e == d.(tasks := e.tasks, execs := e.execs)
    ensures var e := SettleWith(d, t, uncertain); e == d.(tasks := e.tasks, execs := e.execs)
  {
    hide StopTasks, StopExecs;
    if uncertain {} else {}
  }

  lemma SettleFrame(d: Db, t: TaskId)
    ensures var e := Settle(d, t); e == d.(tasks := e.tasks, execs := e.execs)
  {
    hide Unresolved, SettleEnded, SettleWith, HasUnfinishedPlan, LiveClaim;
    if SettleActs(d, t) {
      if TerminalTask(d.tasks[t].status) { SettleFormsFrame(d, t, Unresolved(d, t, true)); }
      else { SettleFormsFrame(d, t, Unresolved(StopChildren(d, ChildrenOf(d, t)), t, true)); }
    }
  }

  lemma {:induction false} ExpireFrame(d: Db, ps: seq<PlanId>)
    ensures var e := ExpirePlans(d, ps); e == d.(tasks := e.tasks, execs := e.execs, plans := e.plans)
    decreases |ps|
  {
    hide Settle;
    if ps != [] {
      if ps[0] in d.plans { SettleFrame(SetPlan(d, ps[0], PlanExpired), d.plans[ps[0]].task); }
      ExpireFrame(ExpirePlan(d, ps[0]), ps[1..]);
    }
  }

  lemma {:induction false} SettleAllFrame(d: Db, ts: seq<TaskId>)
    ensures var e := SettleAll(d, ts); e == d.(tasks := e.tasks, execs := e.execs)
    decreases |ts|
  {
    hide Settle;
    if ts != [] {
      SettleFrame(d, ts[0]);
      SettleAllFrame(Settle(d, ts[0]), ts[1..]);
    }
  }

  lemma SettleExpiredFrame(d: Db, ps: seq<PlanId>, ts: seq<TaskId>)
    ensures var e := SettleExpired(d, ps, ts); e == d.(tasks := e.tasks, execs := e.execs, plans := e.plans)
  {
    hide ExpirePlans, SettleAll, Enumerates, StaleReview, ExpiredPlan;
    ExpireFrame(d, ps);
    SettleAllFrame(ExpirePlans(d, ps), ts);
  }

  lemma RevokeFrame(d: Db, p: PlanId, owner: Owner)
    ensures var e := RevokePlan(d, p, owner); e == d.(tasks := e.tasks, execs := e.execs, plans := e.plans)
  {
    hide Settle;
    if p in d.plans { SettleFrame(SetPlan(d, p, PlanRevoked), d.plans[p].task); }
  }

  // ---------- cancellation ----------

  lemma WithdrawFrame(d: Db, t: TaskId)
    ensures var e := Withdraw(d, t); e == d.(tasks := e.tasks, execs := e.execs, plans := e.plans)
  {
    hide StopTasks, StopExecs, RevokeOpen, RevokedChildren;
  }

  lemma CloseTaskFrame(d: Db, t: TaskId, uncertain: bool)
    requires t in d.tasks
    ensures var e := CloseTask(d, t, uncertain);
      e == d.(tasks := e.tasks, execs := e.execs, claims := e.claims) && OpenClaims(e) <= OpenClaims(d)
  {
  }

  lemma CancelFrame(d: Db, t: TaskId, owner: Owner, selected: bool)
    ensures var e := CancelTask(d, t, owner, selected);
      e == d.(tasks := e.tasks, execs := e.execs, plans := e.plans, claims := e.claims) && OpenClaims(e) <= OpenClaims(d)
  {
    hide Unresolved, Withdraw, CloseTask;
    if CancelActs(d, t, owner, selected) {
      var w := Withdraw(d, t);
      WithdrawFrame(d, t);
      WithdrawKeepsRow(d, t);
      if Stoppable(d, t) {} else { CloseTaskFrame(w, t, Unresolved(w, t, true)); }
    }
  }

  lemma WithdrawKeepsRow(d: Db, t: TaskId)
    ensures Withdraw(d, t).tasks.Keys == d.tasks.Keys && Withdraw(d, t).execs.Keys == d.execs.Keys
  {
  }

  // ---------- the groups of the protocol ----------

  lemma SubmitFrame(d: Db, i: Intake)
    ensures var e := SubmitRequest(d, i); e == d.(tasks := e.tasks, rows := e.rows, turns := e.turns, sessions := e.sessions)
  {
    hide CanSubmit, Newest;
    if i.conversation.Some? {
      BindFrame(Insert(d, i, Request, i.parent), i.task, SessionKey(i.owner, i.conversation.value, i.workspace));
    }
    hide Bind;
    if CanSubmit(d, i) {}
  }

  lemma BindFrame(d: Db, t: TaskId, key: SessionKey)
    ensures var e := Bind(d, t, key); e == d.(turns := e.turns, sessions := e.sessions)
  {
    hide Newest;
  }

  lemma ApproveAndSubmitFrame(d: Db, i: Intake, p: PlanId, reviewed: seq<Change>, draft: bool)
    ensures var e := ApproveAndSubmit(d, i, p, reviewed, draft); e == d.(tasks := e.tasks, rows := e.rows, plans := e.plans)
  {
    hide CanSubmitApply, HasApplyTask;
    if !HasApplyTask(d, p) && CanApprove(d, p, i.owner, reviewed, draft) {
      var d1 := SetPlan(d, p, PlanApproved);
      assert ApprovePlan(d, p, i.owner, reviewed, draft) == d1;
      if CanSubmitApply(d1, i.(workspace := d.plans[p].workspace, source := None), p) {}
    }
  }

  lemma SubmitApplyFrame(d: Db, i: Intake, p: PlanId)
    ensures var e := SubmitApply(d, i, p); e == d.(tasks := e.tasks, rows := e.rows)
  {
    if CanSubmitApply(d, i, p) {}
  }

  lemma ResetFrame(d: Db, k: SessionKey)
    ensures var e := ResetSession(d, k); e == d.(sessions := e.sessions)
  {
  }

  lemma AssessFrame(d: Db, t: TaskId, priority: int)
    ensures var e := Assess(d, t, priority); e == d.(tasks := e.tasks)
  {
    if t in d.tasks {}
  }

  lemma IntakeFrame(d: Db, s: Step)
    requires IntakeStep(s)
    ensures var e := Next(d, s); e == d.(tasks := e.tasks, rows := e.rows, turns := e.turns, sessions := e.sessions, plans := e.plans)
  {
    hide Tick, RegisterWorker, Heartbeat, SubmitRequest, SubmitApply, ApproveAndSubmit, ApprovePlan, RevokePlan, ProposePlan;
    hide StartFailure, Recover, ClaimNext, Renew, Finish, Resume, CancelTask, SettleExpired, BeginApply, MarkJournal, CommitApply;
    hide FailApply, CrashApply, ResolvePlan, ClaimDelivery, SettleDelivery, Acknowledge, ResetSession, Assess;
    match s {
      case SubmitStep(i) => SubmitFrame(d, i);
      case ApproveAndSubmitStep(i, p, reviewed, draft) => ApproveAndSubmitFrame(d, i, p, reviewed, draft);
      case SubmitApplyStep(i, p) => SubmitApplyFrame(d, i, p);
      case ResetStep(k) => ResetFrame(d, k);
      case AssessStep(t, priority) => AssessFrame(d, t, priority);
    }
  }

  lemma ReviewFrame(d: Db, s: Step)
    requires PlanReview(s)
    ensures var e := Next(d, s);
      e == d.(tasks := e.tasks, execs := e.execs, plans := e.plans, claims := e.claims, resolutions := e.resolutions)
      && OpenClaims(e) <= OpenClaims(d)
  {
    hide Tick, RegisterWorker, Heartbeat, SubmitRequest, SubmitApply, ApproveAndSubmit, ApprovePlan, RevokePlan, ProposePlan;
    hide StartFailure, Recover, ClaimNext, Renew, Finish, Resume, CancelTask, SettleExpired, BeginApply, MarkJournal, CommitApply;
    hide FailApply, CrashApply, ResolvePlan, ClaimDelivery, SettleDelivery, Acknowledge, ResetSession, Assess;
    match s {
      case RevokeStep(p, owner) => RevokeFrame(d, p, owner);
      case SettleExpiredStep(ps, ts) => SettleExpiredFrame(d, ps, ts);
      case CancelStep(t, owner, selected) => CancelFrame(d, t, owner, selected);
      case ResolveStep(p, owner, complete) => ResolveFrame(d, p, owner, complete);
      case ApproveStep(p, owner, reviewed, draft) => ApproveFrame(d, p, owner, reviewed, draft);
      case ProposeStep(p, t, owner, changes, drafted, draft) => ProposeFrame(d, p, t, owner, changes, drafted, draft);
    }
  }

  lemma ApproveFrame(d: Db, p: PlanId, owner: Owner, reviewed: seq<Change>, draft: bool)
    ensures var e := ApprovePlan(d, p, owner, reviewed, draft); e == d.(plans := e.plans)
  {
    if CanApprove(d, p, owner, reviewed, draft) {}
  }

  lemma ProposeFrame(d: Db, p: PlanId, t: TaskId, owner: Owner, changes: seq<Change>, drafted: bool, draft: bool)
    ensures var e := ProposePlan(d, p, t, owner, changes, drafted, draft); e == d.(plans := e.plans)
  {
    hide ValidPlan, RevokeOpen;
    if CanPropose(d, p, t, owner, changes, draft) {}
  }

  lemma ResolveFrame(d: Db, p: PlanId, owner: Owner, complete: bool)
    ensures var e := ResolvePlan(d, p, owner, complete); e == d.(tasks := e.tasks, plans := e.plans, resolutions := e.resolutions)
  {
    hide Verdict, ResolvedExecs, LiveClaim;
    if CanResolve(d, p, owner) {}
  }

  lemma FinishFrame(d: Db, r: Record, outcome: Outcome, question: bool, draftLive: bool)
    ensures var e := Finish(d, r, outcome, question, draftLive);
      e == d.(tasks := e.tasks, execs := e.execs, claims := e.claims, results := e.results, turns := e.turns, sessions := e.sessions)
      && OpenClaims(e) <= OpenClaims(d)
  {
    hide Unresolved, LivePlan, CompleteParent, MarkTurn, MarkSession;
    if FinishCommits(d, r, outcome, draftLive) {
      var o := Committed(d, r, outcome, draftLive);
      hide Committed;
      var c := Commit(d, r, o);
      assert c == d.(tasks := c.tasks, execs := c.execs, claims := c.claims, results := c.results);
    }
  }

  lemma AttemptFrame(d: Db, s: Step)
    requires AttemptStep(s)
    ensures var e := Next(d, s);
      e == d.(tasks := e.tasks, execs := e.execs, claims := e.claims, results := e.results, turns := e.turns, sessions := e.sessions)
    ensures !s.ClaimStep? ==> OpenClaims(Next(d, s)) <= OpenClaims(d)
  {
    hide Tick, RegisterWorker, Heartbeat, SubmitRequest, SubmitApply, ApproveAndSubmit, ApprovePlan, RevokePlan, ProposePlan;
    hide StartFailure, Recover, ClaimNext, Renew, Finish, Resume, CancelTask, SettleExpired, BeginApply, MarkJournal, CommitApply;
    hide FailApply, CrashApply, ResolvePlan, ClaimDelivery, SettleDelivery, Acknowledge, ResetSession, Assess;
    match s {
      case FinishStep(r, outcome, question, draftLive) => FinishFrame(d, r, outcome, question, draftLive);
      case StartFailureStep(t, owner, x) => StartFailureFrame(d, t, owner, x);
      case RecoverStep => RecoverFrame(d);
      case ClaimStep(w, slots, t, x) => ClaimFrame(d, w, slots, t, x);
      case RenewStep(r) => RenewFrame(d, r);
      case ResumeStep(t, owner, w) => ResumeFrame(d, t, owner, w);
    }
  }

  // A claim starts one attempt of the task it answers with, below the slot count.
  lemma ClaimFrame(d: Db, w: WorkerId, slots: int, t: TaskId, x: ExecId)
    ensures var e := ClaimNext(d, w, slots, t, x); e == d.(tasks := e.tasks, execs := e.execs, claims := e.claims)
    ensures ClaimNext(d, w, slots, t, x) != d ==> |OpenClaims(d)| < slots && OpenClaims(ClaimNext(d, w, slots, t, x)) == OpenClaims(d) + {t}
  {
    hide HasEarlierWork, Excluded;
    if ClaimAnswers(d, w, slots, Some(t)) && ClaimInserts(d, t, x) {}
  }

  lemma StartFailureFrame(d: Db, t: TaskId, owner: Owner, x: ExecId)
    ensures var e := StartFailure(d, t, owner, x); e == d.(tasks := e.tasks, execs := e.execs, results := e.results)
  {
    if CanRecordFailure(d, t, owner, x) {}
  }

  lemma RecoverFrame(d: Db)
    ensures var e := Recover(d); e == d.(tasks := e.tasks, execs := e.execs, claims := e.claims) && OpenClaims(e) <= OpenClaims(d)
  {
    hide Interrupted, LosesExec;
  }

  lemma RenewFrame(d: Db, r: Record)
    ensures var e := Renew(d, r); e == d.(claims := e.claims) && OpenClaims(e) <= OpenClaims(d)
  {
    if CanRenew(d, r) {}
  }

  lemma ResumeFrame(d: Db, t: TaskId, owner: Owner, w: WorkerId)
    ensures var e := Resume(d, t, owner, w); e == d.(tasks := e.tasks)
  {
    hide Unresolved;
    if CanResume(d, t, owner, w) {}
  }

  lemma ApplyFrame(d: Db, s: Step)
    requires ApplyStep(s)
    ensures var e := Next(d, s); e == d.(plans := e.plans, journal := e.journal, locks := e.locks)
  {
    hide Tick, RegisterWorker, Heartbeat, SubmitRequest, SubmitApply, ApproveAndSubmit, ApprovePlan, RevokePlan, ProposePlan;
    hide StartFailure, Recover, ClaimNext, Renew, Finish, Resume, CancelTask, SettleExpired, BeginApply, MarkJournal, CommitApply;
    hide FailApply, CrashApply, ResolvePlan, ClaimDelivery, SettleDelivery, Acknowledge, ResetSession, Assess;
    match s {
      case BeginStep(r, p, owner, draft, intact) => BeginFrame(d, r, p, owner, draft, intact);
      case CommitStep(ws, draft) => CommitFrame(d, ws, draft);
      case FailStep(ws) => FailFrame(d, ws);
      case MarkStep(ws, i) => MarkFrame(d, ws, i);
      case CrashStep(ws) => CrashFrame(d, ws);
      case TouchStep(ws, draft) =>
    }
  }

  lemma BeginFrame(d: Db, r: Record, p: PlanId, owner: Owner, draft: bool, intact: bool)
    ensures var e := BeginApply(d, r, p, owner, draft, intact); e == d.(plans := e.plans, journal := e.journal, locks := e.locks)
  {
    hide Owns, JournalOf;
    if CanBegin(d, r, p, owner, draft, intact) {}
  }

  lemma CommitFrame(d: Db, ws: Workspace, draft: bool)
    ensures var e := CommitApply(d, ws, draft); e == d.(plans := e.plans, locks := e.locks)
  {
    hide Owns;
    if ws in d.locks && MayTouch(d, d.locks[ws], PlanApplying, draft) {}
  }

  lemma FailFrame(d: Db, ws: Workspace)
    ensures var e := FailApply(d, ws); e == d.(plans := e.plans, locks := e.locks)
  {
    if ws in d.locks && d.locks[ws].plan in d.plans {}
  }

  lemma CrashFrame(d: Db, ws: Workspace)
    ensures var e := CrashApply(d, ws); e == d.(locks := e.locks)
  {
  }

  lemma MarkFrame(d: Db, ws: Workspace, i: nat)
    ensures var e := MarkJournal(d, ws, i); e == d.(journal := e.journal)
  {
    if ws in d.locks && d.locks[ws].plan in d.journal && i < |d.journal[d.locks[ws].plan]| {}
  }

  lemma OtherFrame(d: Db, s: Step)
    requires !IntakeStep(s) && !PlanReview(s) && !AttemptStep(s) && !ApplyStep(s)
    ensures var e := Next(d, s); e == d.(clock := e.clock, workers := e.workers, results := e.results) && d.clock <= e.clock
    ensures Next(d, s).results.Keys == d.results.Keys
  {
    hide Tick, RegisterWorker, Heartbeat, SubmitRequest, SubmitApply, ApproveAndSubmit, ApprovePlan, RevokePlan, ProposePlan;
    hide StartFailure, Recover, ClaimNext, Renew, Finish, Resume, CancelTask, SettleExpired, BeginApply, MarkJournal, CommitApply;
    hide FailApply, CrashApply, ResolvePlan, ClaimDelivery, SettleDelivery, Acknowledge, ResetSession, Assess;
    match s {
      case TickStep(now) => TickFrame(d, now);
      case RegisterStep(w) => RegisterFrame(d, w);
      case HeartbeatStep(w, closed) => HeartbeatFrame(d, w, closed);
      case ClaimDeliveryStep(t, owner, x, attempt) => ClaimDeliveryFrame(d, t, owner, x, attempt);
      case SettleDeliveryStep(x, delivered) => SettleDeliveryFrame(d, x, delivered);
      case AcknowledgeStep(t, owner) => AcknowledgeFrame(d, t, owner);
    }
  }

  lemma TickFrame(d: Db, now: int)
    ensures var e := Tick(d, now); e == d.(clock := e.clock) && d.clock <= e.clock
  {
    if now >= d.clock {}
  }

  lemma RegisterFrame(d: Db, w: WorkerId)
    ensures var e := RegisterWorker(d, w); e == d.(workers := e.workers)
  {
    if w in d.workers {}
  }

  lemma HeartbeatFrame(d: Db, w: WorkerId, closed: bool)
    ensures var e := Heartbeat(d, w, closed); e == d.(workers := e.workers)
  {
    if w in d.workers {}
  }

  lemma SettleDeliveryFrame(d: Db, x: ExecId, delivered: bool)
    ensures var e := SettleDelivery(d, x, delivered); e == d.(results := e.results) && e.results.Keys == d.results.Keys
  {
    if x in d.results && d.results[x].delivery.Sending? {}
  }

  lemma ClaimDeliveryFrame(d: Db, t: TaskId, owner: Owner, x: ExecId, attempt: nat)
    ensures var e := ClaimDelivery(d, t, owner, x, attempt); e == d.(results := e.results) && e.results.Keys == d.results.Keys
  {
    if CanSend(d, t, owner, x, attempt) {}
  }

  lemma AcknowledgeFrame(d: Db, t: TaskId, owner: Owner)
    ensures var e := Acknowledge(d, t, owner); e == d.(results := e.results) && e.results.Keys == d.results.Keys
  {
    if t in d.tasks && d.tasks[t].owner == owner && AmbiguousDelivery(d, t) {}
  }
}
