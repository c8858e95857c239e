// Which tasks a revocation, an expiry pass, a cancellation or a resolution can move, and why.
module ClosingCauses {
  import opened Options
  import opened FilePlans
  import opened LedgerTypes
  import opened Transactions
  import opened LedgerInvariants
  import opened LedgerProofs
  import opened StepProofs
  import opened Protocol
  import opened Frames

  // Transactions that close review state.
  predicate Closes(s: Step) { s.RevokeStep? || s.SettleExpiredStep? || s.CancelStep? || s.ResolveStep? }

  predicate Unfinished(s: PlanStatus) { OpenPlan(s) || s.PlanApplying? }

  // A queued task is withdrawn, an active one is asked to stop.
  predicate Stopping(r: Task, b: TaskStatus) { (r.status.Queued? && b.Cancelled?) || (ActiveTask(r.status) && b.Cancelling?) }

  // Settling `u`, which no live attempt works on, may move `t` into `b`.
  predicate SettleReaches(d: Db, u: TaskId, t: TaskId, b: TaskStatus)
    requires t in d.tasks
  {
    && u in d.tasks && !LiveClaim(d, u)
    && ((t == u && (b.Blocked? || (b.Cancelled? && !TerminalTask(d.tasks[t].status))))
        || (t != u && d.tasks[t].parent == Some(u) && Stopping(d.tasks[t], b)))
  }

  // Every plan of `u` that is not finished has expired.
  ghost predicate ReviewsOver(d: Db, u: TaskId) {
    forall o | o in d.plans && d.plans[o].task == u && Unfinished(d.plans[o].status) :: ExpiredPlan(d, o)
  }

  predicate HasReviewAttempt(d: Db, t: TaskId) { exists e | e in d.execs :: d.execs[e].task == t && d.execs[e].status.ExecAwaiting? }

  // An expired plan whose request is thereby settled.
  ghost predicate ExpiryReaches(d: Db, q: PlanId, t: TaskId, b: TaskStatus)
    requires t in d.tasks
  {
    ExpiredPlan(d, q) && ReviewsOver(d, d.plans[q].task) && SettleReaches(d, d.plans[q].task, t, b)
  }

  // Why a closing step moves `t` into `b`: which plan or task of whom it closes, and how `t`
  // belongs to it.
  ghost predicate ClosingCause(d: Db, s: Step, t: TaskId, b: TaskStatus)
    requires t in d.tasks
  {
    var r := d.tasks[t];
    match s
    case RevokeStep(q, owner) =>
      && q in d.plans && d.plans[q].owner == owner && OpenPlan(d.plans[q].status)
      && SettleReaches(d, d.plans[q].task, t, b)
      && (forall o | o in d.plans && o != q && d.plans[o].task == d.plans[q].task :: !Unfinished(d.plans[o].status))
    case SettleExpiredStep(_, _) =>
      || (exists q :: ExpiryReaches(d, q, t, b))
      // A review that was left open on a task that had ended, or just ended as a child.
      || (b.Blocked? && ReviewsOver(d, t) && HasReviewAttempt(d, t)
          && (TerminalTask(r.status) || exists q :: ExpiryReaches(d, q, t, Cancelled)))
    case CancelStep(u, owner, selected) =>
      && CancelActs(d, u, owner, selected)
      && (|| (t == u && if Stoppable(d, t) then b.Cancelling? else b.Blocked? || b.Cancelled?)
          || (t in RevokedChildren(d, u) && Stopping(r, b)))
    case ResolveStep(q, owner, complete) =>
      && CanResolve(d, q, owner)
      && (|| (t == d.plans[q].task && (b.Blocked? || (complete && b.Completed?)))
          || (r.kind == Apply(q) && (r.status.Blocked? || r.status.Failed?)
              && (b.Blocked? || b == if complete then Completed else Cancelled)))
    case _ => false
  }

  ghost predicate MovesTask(d: Db, e: Db, t: TaskId) {
    t in d.tasks && t in e.tasks && e.tasks[t].status != d.tasks[t].status
  }

  // ---------- settling one request ----------

  lemma ClosedReaches(d: Db, u: TaskId, uncertain: bool, t: TaskId)
    requires u in d.tasks && t in d.tasks && !LiveClaim(d, u)
    ensures t in SettleEnded(d, u, uncertain).tasks && t in SettleWith(d, u, uncertain).tasks
    ensures MovesTask(d, SettleEnded(d, u, uncertain), t) ==> t == u && SettleReaches(d, u, t, SettleEnded(d, u, uncertain).tasks[t].status)
    ensures MovesTask(d, SettleWith(d, u, uncertain), t) && !TerminalTask(d.tasks[u].status) ==>
      SettleReaches(d, u, t, SettleWith(d, u, uncertain).tasks[t].status)
  {
    hide StopExecs, LiveClaim;
    if uncertain {} else {}
  }

  lemma SettleMoves(d: Db, u: TaskId, t: TaskId)
    requires t in d.tasks
    ensures t in Settle(d, u).tasks && Settle(d, u).tasks.Keys == d.tasks.Keys
    ensures MovesTask(d, Settle(d, u), t) ==> SettleActs(d, u) && SettleReaches(d, u, t, Settle(d, u).tasks[t].status)
  {
    hide Unresolved, HasUnfinishedPlan, LiveClaim, SettleEnded, SettleWith;
    SettleSameTasks(d, u);
    if SettleActs(d, u) {
      if TerminalTask(d.tasks[u].status) { ClosedReaches(d, u, Unresolved(d, u, true), t); }
      else { ClosedReaches(d, u, Unresolved(StopChildren(d, ChildrenOf(d, u)), u, true), t); }
    }
  }

  lemma ClosedSameTasks(d: Db, u: TaskId, uncertain: bool)
    requires u in d.tasks
    ensures SettleEnded(d, u, uncertain).tasks.Keys == d.tasks.Keys && SettleWith(d, u, uncertain).tasks.Keys == d.tasks.Keys
    ensures forall t | t in d.tasks ::
      SettleEnded(d, u, uncertain).tasks[t].parent == d.tasks[t].parent && SettleWith(d, u, uncertain).tasks[t].parent == d.tasks[t].parent
  {
    hide StopExecs;
    if uncertain {} else {}
  }

  // Settling changes no identity.
  lemma SettleSameTasks(d: Db, u: TaskId)
    ensures Settle(d, u).tasks.Keys == d.tasks.Keys
    ensures forall t | t in d.tasks :: Settle(d, u).tasks[t].parent == d.tasks[t].parent
  {
    hide Unresolved, HasUnfinishedPlan, LiveClaim, SettleEnded, SettleWith;
    if SettleActs(d, u) {
      if TerminalTask(d.tasks[u].status) { ClosedSameTasks(d, u, Unresolved(d, u, true)); }
      else { ClosedSameTasks(d, u, Unresolved(StopChildren(d, ChildrenOf(d, u)), u, true)); }
    }
  }

  lemma RevokeReaches(d: Db, q: PlanId, owner: Owner, t: TaskId)
    requires MovesTask(d, RevokePlan(d, q, owner), t)
    ensures ClosingCause(d, RevokeStep(q, owner), t, RevokePlan(d, q, owner).tasks[t].status)
  {
    hide Settle;
    if q in d.plans && OpenPlan(d.plans[q].status) {
      var d1 := SetPlan(d, q, PlanRevoked);
      SettleMoves(d1, d.plans[q].task, t);
      forall o | o in d.plans && o != q ensures d1.plans[o] == d.plans[o] {}
    }
  }

  // ---------- an expiry pass ----------

  // Plan `q`, the last of its request still under review among those not in `ps`.
  ghost predicate PassReaches(d: Db, ps: seq<PlanId>, q: PlanId, t: TaskId, b: TaskStatus)
    requires t in d.tasks
  {
    && q in ps && q in d.plans && OpenPlan(d.plans[q].status) && SettleReaches(d, d.plans[q].task, t, b)
    && forall o | o in d.plans && d.plans[o].task == d.plans[q].task && Unfinished(d.plans[o].status) :: o in ps
  }

  lemma FirstReaches(d: Db, p: PlanId, t: TaskId)
    requires t in d.tasks
    ensures var e := ExpirePlan(d, p);
      && e == d.(tasks := e.tasks, execs := e.execs, plans := e.plans) && e.tasks.Keys == d.tasks.Keys
      && (forall u | u in d.tasks :: e.tasks[u].parent == d.tasks[u].parent)
      && e.plans == if p in d.plans && OpenPlan(d.plans[p].status) then d.plans[p := d.plans[p].(status := PlanExpired)] else d.plans
    ensures MovesTask(d, ExpirePlan(d, p), t) ==> PassReaches(d, [p], p, t, ExpirePlan(d, p).tasks[t].status)
  {
    hide Settle, HasUnfinishedPlan;
    if p in d.plans && OpenPlan(d.plans[p].status) {
      var d1, u := SetPlan(d, p, PlanExpired), d.plans[p].task;
      SettleFrame(d1, u);
      SettleSameTasks(d1, u);
      SettleMoves(d1, u, t);
      if SettleActs(d1, u) { NoOthersUnfinished(d, p); }
    }
  }

  lemma NoOthersUnfinished(d: Db, p: PlanId)
    requires p in d.plans && OpenPlan(d.plans[p].status) && !HasUnfinishedPlan(SetPlan(d, p, PlanExpired), d.plans[p].task)
    ensures forall o | o in d.plans && d.plans[o].task == d.plans[p].task && Unfinished(d.plans[o].status) :: o in [p]
  {
    var d1 := SetPlan(d, p, PlanExpired);
    forall o | o in d.plans && o != p ensures d1.plans[o] == d.plans[o] {}
  }

  lemma {:induction false} PassMoves(d: Db, ps: seq<PlanId>, t: TaskId)
    requires t in d.tasks
    ensures t in ExpirePlans(d, ps).tasks
    ensures MovesTask(d, ExpirePlans(d, ps), t) ==> exists q :: PassReaches(d, ps, q, t, ExpirePlans(d, ps).tasks[t].status)
    decreases |ps|
  {
    hide ExpirePlan, LiveClaim;
    if ps != [] {
      var d1 := ExpirePlan(d, ps[0]);
      FirstReaches(d, ps[0], t);
      PassMoves(d1, ps[1..], t);
      var e := ExpirePlans(d1, ps[1..]);
      SameClaims(d, d1);
      if MovesTask(d1, e, t) {
        var q :| PassReaches(d1, ps[1..], q, t, e.tasks[t].status);
        LaterReaches(d, ps, q, t, e.tasks[t].status);
      } else if MovesTask(d, e, t) {
        assert PassReaches(d, ps, ps[0], t, e.tasks[t].status);
      }
    }
  }

  lemma SameClaims(d: Db, e: Db)
    requires e == d.(tasks := e.tasks, execs := e.execs, plans := e.plans)
    ensures forall u :: LiveClaim(e, u) <==> LiveClaim(d, u)
  {
  }

  // What a later expiry reaches, it reaches from the start of the pass.
  lemma LaterReaches(d: Db, ps: seq<PlanId>, q: PlanId, t: TaskId, b: TaskStatus)
    requires ps != [] && t in d.tasks && t in ExpirePlan(d, ps[0]).tasks
    requires PassReaches(ExpirePlan(d, ps[0]), ps[1..], q, t, b)
    ensures PassReaches(d, ps, q, t, b)
  {
    hide ExpirePlan, LiveClaim;
    var d1 := ExpirePlan(d, ps[0]);
    FirstReaches(d, ps[0], t);
    SameClaims(d, d1);
    assert q in ps && q in d.plans && d1.plans[q].task == d.plans[q].task && OpenPlan(d.plans[q].status);
    var u := d.plans[q].task;
    forall o | o in d.plans && d.plans[o].task == u && Unfinished(d.plans[o].status) ensures o in ps {
      if o != ps[0] { assert d1.plans[o] == d.plans[o]; }
    }
    if MovesTask(d, d1, t) && t == u { assert PassReaches(d, [ps[0]], ps[0], t, d1.tasks[t].status); assert q != ps[0]; }
  }

  lemma {:induction false} StaleMoves(d: Db, ts: seq<TaskId>, t: TaskId)
    requires t in d.tasks
    requires forall i, j :: 0 <= i < j < |ts| ==> ts[i] != ts[j]
    requires forall i :: 0 <= i < |ts| ==> ts[i] in d.tasks && TerminalTask(d.tasks[ts[i]].status)
    ensures t in SettleAll(d, ts).tasks
    ensures MovesTask(d, SettleAll(d, ts), t) ==> t in ts && SettleAll(d, ts).tasks[t].status.Blocked?
    decreases |ts|
  {
    hide Settle;
    if ts != [] {
      var d1 := Settle(d, ts[0]);
      SettleMoves(d, ts[0], t);
      forall i | 0 <= i < |ts[1..]| ensures ts[1..][i] in d1.tasks && TerminalTask(d1.tasks[ts[1..][i]].status) {
        assert ts[1..][i] == ts[i + 1] && ts[0] != ts[i + 1];
        SettleTerminal(d, ts[0], ts[i + 1]);
      }
      if t != ts[0] { SettleTerminal(d, ts[0], t); }
      StaleMoves(d1, ts[1..], t);
    }
  }

  // The reviews of a task that are still open after the expiries were open before them, and
  // what is unfinished before them has expired.
  lemma StaleBefore(d: Db, ps: seq<PlanId>, t: TaskId)
    requires t in d.tasks && StaleReview(ExpirePlans(d, ps), t) && forall p | p in ps :: ExpiredPlan(d, p)
    ensures ReviewsOver(d, t) && HasReviewAttempt(d, t)
  {
    var d1 := ExpirePlans(d, ps);
    ExpireLeaves(d, ps);
    var x :| x in d1.execs && d1.execs[x].task == t && d1.execs[x].status.ExecAwaiting?;
    assert x in d.execs;
    forall o | o in d.plans && d.plans[o].task == t && Unfinished(d.plans[o].status) ensures ExpiredPlan(d, o) {
      assert o in d1.plans;
    }
  }

  lemma {:induction false} ExpireLeaves(d: Db, ps: seq<PlanId>)
    ensures var e := ExpirePlans(d, ps);
      && (forall x | x in e.execs && e.execs[x].status.ExecAwaiting? :: x in d.execs && d.execs[x] == e.execs[x])
      && (forall o | o in d.plans :: o in e.plans && (e.plans[o] == d.plans[o] || o in ps))
    decreases |ps|
  {
    hide Settle;
    if ps != [] {
      var d1 := ExpirePlan(d, ps[0]);
      if ps[0] in d.plans && OpenPlan(d.plans[ps[0]].status) {
        SettleFrame(SetPlan(d, ps[0], PlanExpired), d.plans[ps[0]].task);
        SettleLeaves(SetPlan(d, ps[0], PlanExpired), d.plans[ps[0]].task);
      }
      ExpireLeaves(d1, ps[1..]);
    }
  }

  lemma SettleLeaves(d: Db, u: TaskId)
    ensures var e := Settle(d, u); forall x | x in e.execs && e.execs[x].status.ExecAwaiting? :: x in d.execs && d.execs[x] == e.execs[x]
  {
    hide Unresolved, HasUnfinishedPlan, LiveClaim, SettleEnded, SettleWith;
    if SettleActs(d, u) {
      if TerminalTask(d.tasks[u].status) { ClosedLeaves(d, u, Unresolved(d, u, true)); }
      else { ClosedLeaves(d, u, Unresolved(StopChildren(d, ChildrenOf(d, u)), u, true)); }
    }
  }

  lemma ClosedLeaves(d: Db, u: TaskId, uncertain: bool)
    requires u in d.tasks
    ensures var e := SettleEnded(d, u, uncertain); forall x | x in e.execs && e.execs[x].status.ExecAwaiting? :: x in d.execs && d.execs[x] == e.execs[x]
    ensures var e := SettleWith(d, u, uncertain); forall x | x in e.execs && e.execs[x].status.ExecAwaiting? :: x in d.execs && d.execs[x] == e.execs[x]
  {
    hide StopTasks;
    if uncertain {} else {}
  }

  // The plans and tasks that the pass enumerates are the due ones.
  lemma PassIsDue(d: Db, ps: seq<PlanId>)
    requires Enumerates(ps, set p | p in d.plans && ExpiredPlan(d, p))
    ensures forall p | p in ps :: ExpiredPlan(d, p)
  {
    var due := set p | p in d.plans && ExpiredPlan(d, p);
    forall p | p in ps ensures ExpiredPlan(d, p) {
      assert p in (set x | x in ps);
      assert p in due;
    }
  }

  lemma StaleIsDue(d: Db, ts: seq<TaskId>)
    requires Enumerates(ts, set u | u in d.tasks && StaleReview(d, u))
    ensures forall u | u in ts :: StaleReview(d, u) && u in d.tasks && TerminalTask(d.tasks[u].status)
    ensures forall i, j :: 0 <= i < j < |ts| ==> ts[i] != ts[j]
  {
    var stale := set u | u in d.tasks && StaleReview(d, u);
    forall u | u in ts ensures StaleReview(d, u) {
      assert u in (set x | x in ts);
      assert u in stale;
    }
  }

  lemma SettleExpiredReaches(d: Db, ps: seq<PlanId>, ts: seq<TaskId>, t: TaskId)
    requires MovesTask(d, SettleExpired(d, ps, ts), t)
    ensures ClosingCause(d, SettleExpiredStep(ps, ts), t, SettleExpired(d, ps, ts).tasks[t].status)
  {
    var d1 := ExpirePlans(d, ps);
    PassIsDue(d, ps);
    StaleIsDue(d1, ts);
    assert SettleExpired(d, ps, ts) == SettleAll(d1, ts);
    hide SettleExpired;
    ExpiryPassReaches(d, ps, ts, t);
  }

  lemma ExpiryPassReaches(d: Db, ps: seq<PlanId>, ts: seq<TaskId>, t: TaskId)
    requires MovesTask(d, SettleAll(ExpirePlans(d, ps), ts), t)
    requires forall p | p in ps :: ExpiredPlan(d, p)
    requires forall u | u in ts :: StaleReview(ExpirePlans(d, ps), u) && u in ExpirePlans(d, ps).tasks && TerminalTask(ExpirePlans(d, ps).tasks[u].status)
    requires forall i, j :: 0 <= i < j < |ts| ==> ts[i] != ts[j]
    ensures ClosingCause(d, SettleExpiredStep(ps, ts), t, SettleAll(ExpirePlans(d, ps), ts).tasks[t].status)
  {
    hide ExpirePlans, SettleAll, StaleReview, LiveClaim;
    var d1 := ExpirePlans(d, ps);
    var e := SettleAll(d1, ts);
    PassMoves(d, ps, t);
    StaleMoves(d1, ts, t);
    if MovesTask(d, d1, t) { PassHasCause(d, ps, t, d1.tasks[t].status); }
    if MovesTask(d1, e, t) { StaleBefore(d, ps, t); }
  }

  lemma PassHasCause(d: Db, ps: seq<PlanId>, t: TaskId, b: TaskStatus)
    requires t in d.tasks && (exists q :: PassReaches(d, ps, q, t, b)) && forall p | p in ps :: ExpiredPlan(d, p)
    ensures exists q :: ExpiryReaches(d, q, t, b)
  {
    hide LiveClaim;
    var q :| PassReaches(d, ps, q, t, b);
    assert ExpiryReaches(d, q, t, b);
  }

  // ---------- cancellation and resolution ----------

  lemma CancelReaches(d: Db, u: TaskId, owner: Owner, selected: bool, t: TaskId)
    requires Inv(d) && MovesTask(d, CancelTask(d, u, owner, selected), t)
    ensures ClosingCause(d, CancelStep(u, owner, selected), t, CancelTask(d, u, owner, selected).tasks[t].status)
  {
    hide Inv, Unresolved, Withdraw, Stoppable;
    if CancelActs(d, u, owner, selected) {
      var w := Withdraw(d, u);
      WithdrawFrame(d, u);
      WithdrawKeepsRow(d, u);
      WithdrawnTask(d, u, t);
      StoppableKnows(d, u);
      if Stoppable(d, u) {} else {}
    }
  }

  lemma StoppableKnows(d: Db, u: TaskId)
    requires u in d.tasks
    ensures Stoppable(d, u) ==> u in d.claims && d.claims[u].exec in d.execs
  {
  }

  lemma WithdrawnTask(d: Db, u: TaskId, t: TaskId)
    requires t in d.tasks
    ensures var w := Withdraw(d, u);
      t in w.tasks && (w.tasks[t] == d.tasks[t] || (t in RevokedChildren(d, u) && Stopping(d.tasks[t], w.tasks[t].status)))
  {
    hide StopExecs, RevokedChildren, RevokeOpen;
  }

  lemma ResolveReaches(d: Db, q: PlanId, owner: Owner, complete: bool, t: TaskId)
    requires MovesTask(d, ResolvePlan(d, q, owner, complete), t)
    ensures ClosingCause(d, ResolveStep(q, owner, complete), t, ResolvePlan(d, q, owner, complete).tasks[t].status)
  {
    hide ResolvedExecs, LiveClaim, Unresolved;
    if CanResolve(d, q, owner) {}
  }

  // In any closing step every change of a task's status has its cause.
  lemma ClosingMovesHaveCauses(d: Db, s: Step, t: TaskId)
    requires Inv(d) && Closes(s) && MovesTask(d, Next(d, s), t)
    ensures ClosingCause(d, s, t, Next(d, s).tasks[t].status)
  {
    hide Tick, RegisterWorker, Heartbeat, SubmitRequest, SubmitApply, ApproveAndSubmit, ApprovePlan, RevokePlan, ProposePlan;
    hide StartFailure, Recover, ClaimNext, Renew, Finish, Resume, CancelTask, SettleExpired, BeginApply, MarkJournal, CommitApply;
    hide FailApply, CrashApply, ResolvePlan, ClaimDelivery, SettleDelivery, Acknowledge, ResetSession, Assess;
    hide Inv, ClosingCause;
    match s {
      case RevokeStep(q, owner) => RevokeReaches(d, q, owner, t);
      case SettleExpiredStep(ps, ts) => SettleExpiredReaches(d, ps, ts, t);
      case CancelStep(u, owner, selected) => CancelReaches(d, u, owner, selected, t);
      case ResolveStep(q, owner, complete) => ResolveReaches(d, q, owner, complete, t);
    }
  }

  // ---------- no rows appear ----------

  lemma {:induction false} ExpireSameTasks(d: Db, ps: seq<PlanId>)
    ensures ExpirePlans(d, ps).tasks.Keys == d.tasks.Keys
    decreases |ps|
  {
    hide Settle;
    if ps != [] {
      if ps[0] in d.plans { SettleSameTasks(SetPlan(d, ps[0], PlanExpired), d.plans[ps[0]].task); }
      ExpireSameTasks(ExpirePlan(d, ps[0]), ps[1..]);
    }
  }

  lemma {:induction false} SettleAllSameTasks(d: Db, ts: seq<TaskId>)
    ensures SettleAll(d, ts).tasks.Keys == d.tasks.Keys
    decreases |ts|
  {
    hide Settle;
    if ts != [] {
      SettleSameTasks(d, ts[0]);
      SettleAllSameTasks(Settle(d, ts[0]), ts[1..]);
    }
  }

  lemma ClosingSameTasks(d: Db, s: Step)
    requires Closes(s)
    ensures Next(d, s).tasks.Keys == d.tasks.Keys
  {
    hide Tick, RegisterWorker, Heartbeat, SubmitRequest, SubmitApply, ApproveAndSubmit, ApprovePlan, RevokePlan, ProposePlan;
    hide StartFailure, Recover, ClaimNext, Renew, Finish, Resume, CancelTask, SettleExpired, BeginApply, MarkJournal, CommitApply;
    hide FailApply, CrashApply, ResolvePlan, ClaimDelivery, SettleDelivery, Acknowledge, ResetSession, Assess;
    match s {
      case RevokeStep(q, owner) => RevokeSameTasks(d, q, owner);
      case SettleExpiredStep(ps, ts) => SettleExpiredSameTasks(d, ps, ts);
      case CancelStep(u, owner, selected) => CancelSameTasks(d, u, owner, selected);
      case ResolveStep(q, owner, complete) => ResolveSameTasks(d, q, owner, complete);
    }
  }

  lemma RevokeSameTasks(d: Db, q: PlanId, owner: Owner)
    ensures RevokePlan(d, q, owner).tasks.Keys == d.tasks.Keys
  {
    hide Settle;
    if q in d.plans { SettleSameTasks(SetPlan(d, q, PlanRevoked), d.plans[q].task); }
  }

  lemma SettleExpiredSameTasks(d: Db, ps: seq<PlanId>, ts: seq<TaskId>)
    ensures SettleExpired(d, ps, ts).tasks.Keys == d.tasks.Keys
  {
    hide ExpirePlans, SettleAll, Enumerates, StaleReview, ExpiredPlan;
    ExpireSameTasks(d, ps);
    SettleAllSameTasks(ExpirePlans(d, ps), ts);
  }

  lemma CancelSameTasks(d: Db, u: TaskId, owner: Owner, selected: bool)
    ensures CancelTask(d, u, owner, selected).tasks.Keys == d.tasks.Keys
  {
    hide Unresolved, Withdraw;
    if CancelActs(d, u, owner, selected) {
      WithdrawFrame(d, u);
      WithdrawKeepsRow(d, u);
      if Stoppable(d, u) {} else {}
    }
  }

  lemma ResolveSameTasks(d: Db, q: PlanId, owner: Owner, complete: bool)
    ensures ResolvePlan(d, q, owner, complete).tasks.Keys == d.tasks.Keys
  {
    hide Verdict, ResolvedExecs, LiveClaim;
    if CanResolve(d, q, owner) {}
  }
}
