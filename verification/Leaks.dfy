// Closing a plan, or resolving one, while the claim of its request task has expired but has
// not been recovered holds the task without releasing the claim. No later transaction of
// the protocol releases it, so the slot is lost: exactly when, and for how long.
module Leaks {
  import opened Options
  import opened FilePlans
  import opened LedgerTypes
  import opened Transactions
  import opened LedgerInvariants
  import opened LedgerProofs
  import opened CalmProofs
  import opened StepProofs
  import opened CreateProofs
  import opened Protocol
  import opened Effects
  import opened Frames
  import opened Scheduling
  import opened ClosingCauses

  ghost predicate NewLeak(d: Db, e: Db, u: TaskId) { Leaked(e, u) && !Leaked(d, u) }

  lemma SettleWithLeaks(d: Db, t: TaskId, uncertain: bool, u: TaskId)
    requires Inv(d) && t in d.tasks && d.tasks[t].kind.Request?
    ensures NewLeak(d, SettleWith(d, t, uncertain), u) ==> u == t
    ensures uncertain && ActiveTask(d.tasks[t].status) && !LiveClaim(d, t) ==> NewLeak(d, SettleWith(d, t, uncertain), t)
  {
    assert TaskRow(d, t) && ClaimRow(d, t) && TaskRow(d, u) && ClaimRow(d, u);
  }

  lemma SettleEndedLeaks(d: Db, t: TaskId, uncertain: bool, u: TaskId)
    requires Inv(d) && t in d.tasks && TerminalTask(d.tasks[t].status)
    ensures !NewLeak(d, SettleEnded(d, t, uncertain), u)
  {
    var d1 := CloseReviews(d, t, uncertain);
    assert d1.tasks == d.tasks && d1.claims == d.claims;
    assert ClaimRow(d, u) && ClaimRow(d, t);
    if uncertain {} else {}
  }

  lemma SettleLeaksExactly(d: Db, t: TaskId)
    requires Inv(d) && SettleActs(d, t) && d.tasks[t].kind.Request?
    ensures (exists u :: NewLeak(d, Settle(d, t), u)) <==> ActiveTask(d.tasks[t].status)
  {
    if TerminalTask(d.tasks[t].status) {
      forall v ensures !NewLeak(d, Settle(d, t), v) { SettleEndedLeaks(d, t, Unresolved(d, t, true), v); }
    } else {
      var d1 := StopChildren(d, ChildrenOf(d, t));
      var u := Unresolved(d1, t, true);
      var e := SettleWith(d, t, u);
      StopChildrenKeeps(d, ChildrenOf(d, t));
      assert TaskRow(d, t) && ClaimRow(d, t) && ClaimRow(d1, t);
      if OpenClaim(d, t) { ActiveIsUnresolved(d1, t, d1.claims[t].exec, true); }
      SettleFormsFrame(d, t, u);
      forall v ensures NewLeak(d, e, v) ==> v == t { SettleWithLeaks(d, t, u, v); }
      SettleWithLeaks(d, t, u, t);
      assert Settle(d, t) == e;
      assert NewLeak(d, e, t) <==> ActiveTask(d.tasks[t].status);
    }
  }

  lemma NoOpenPlanLeak(d: Db, p: PlanId, s: PlanStatus)
    requires p in d.plans
    ensures forall u :: Leaked(SetPlan(d, p, s), u) <==> Leaked(d, u)
  {
  }

  lemma LastReviewSettles(d: Db, p: PlanId, s: PlanStatus)
    requires Inv(d) && p in d.plans && OpenPlan(d.plans[p].status) && (s.PlanRevoked? || s.PlanExpired?)
    ensures LastReview(d, p) <==> SettleActs(SetPlan(d, p, s), d.plans[p].task) && !TerminalTask(d.tasks[d.plans[p].task].status)
  {
    var d1 := SetPlan(d, p, s);
    assert PlanRow(d, p);
    forall q | q in d.plans && q != p ensures d1.plans[q] == d.plans[q] {}
  }

  // Revoking or expiring a plan leaks a claim if and only if this was the last review of a
  // task that is still running or stopping (whose claim has therefore expired).
  lemma ClosePlanLeaksExactly(d: Db, p: PlanId, s: PlanStatus)
    requires Inv(d) && p in d.plans && OpenPlan(d.plans[p].status) && (s.PlanRevoked? || s.PlanExpired?)
    ensures (exists u :: NewLeak(d, Settle(SetPlan(d, p, s), d.plans[p].task), u))
      <==> LastReview(d, p) && ActiveTask(d.tasks[d.plans[p].task].status)
  {
    var t := d.plans[p].task;
    var d1 := SetPlan(d, p, s);
    assert PlanRow(d, p);
    SetPlanKeeps(d, p, s);
    LastReviewSettles(d, p, s);
    NoOpenPlanLeak(d, p, s);
    if SettleActs(d1, t) {
      SettleLeaksExactly(d1, t);
      forall u ensures NewLeak(d, Settle(d1, t), u) <==> NewLeak(d1, Settle(d1, t), u) {}
    }
  }

  lemma VerdictSparesOthers(d: Db, p: PlanId, complete: bool, u: TaskId)
    requires Inv(d) && p in d.plans && d.plans[p].task in d.tasks && u != d.plans[p].task
    ensures !NewLeak(d, PassVerdict(d, p, complete), u)
  {
    assert PlanRow(d, p) && ClaimRow(d, u) && TaskRow(d, u);
    if u in d.tasks { VerdictHasShape(d, p, complete, u); }
  }

  lemma VerdictLeaks(d: Db, p: PlanId, complete: bool)
    requires Inv(d) && p in d.plans && d.plans[p].task in d.tasks && !LiveClaim(d, d.plans[p].task)
    ensures NewLeak(d, PassVerdict(d, p, complete), d.plans[p].task) <==> ActiveTask(d.tasks[d.plans[p].task].status)
  {
    var t := d.plans[p].task;
    assert PlanRow(d, p) && ClaimRow(d, t) && TaskRow(d, t);
    if OpenClaim(d, t) {
      ActiveIsUnresolved(d, t, d.claims[t].exec, true);
      assert Verdict(d, p, t, complete) == d.tasks[t].(status := Blocked, eligible := false);
    }
  }

  // Resolving a plan leaks a claim if and only if its request task is still running or stopping.
  lemma ResolveLeaksExactly(d: Db, p: PlanId, owner: Owner, complete: bool)
    requires Inv(d) && CanResolve(d, p, owner)
    ensures (exists u :: NewLeak(d, ResolvePlan(d, p, owner, complete), u)) <==> ActiveTask(d.tasks[d.plans[p].task].status)
  {
    var t := d.plans[p].task;
    var d1 := RecordResolution(d, p, complete);
    var e := PassVerdict(d1, p, complete);
    RecordResolutionKeeps(d, p, complete);
    forall u ensures NewLeak(d, e, u) <==> NewLeak(d1, e, u) {}
    forall u | u != t ensures !NewLeak(d1, e, u) { VerdictSparesOthers(d1, p, complete, u); }
    VerdictLeaks(d1, p, complete);
    assert NewLeak(d, e, t) <==> NewLeak(d1, e, t);
    assert ResolvePlan(d, p, owner, complete) == e;
    assert NewLeak(d, e, t) <==> ActiveTask(d.tasks[t].status);
  }

  // ---------- a whole expiry pass ----------

  // The pass closes the last reviews of `u`, which is still running or stopping although its
  // claim has expired.
  ghost predicate LeakDue(d: Db, ps: seq<PlanId>, u: TaskId) {
    && u in d.tasks && ActiveTask(d.tasks[u].status) && !LiveClaim(d, u)
    && (exists p :: p in ps && p in d.plans && d.plans[p].task == u)
    && (forall o | o in d.plans && d.plans[o].task == u && Unfinished(d.plans[o].status) :: o in ps)
  }

  ghost predicate AllOpen(d: Db, ps: seq<PlanId>) {
    && (forall p | p in ps :: p in d.plans && OpenPlan(d.plans[p].status))
    && (forall i, j :: 0 <= i < j < |ps| ==> ps[i] != ps[j])
  }

  // One plan's expiry, task by task.
  lemma ExpireLeaks(d: Db, p: PlanId, u: TaskId)
    requires Inv(d) && p in d.plans && OpenPlan(d.plans[p].status)
    ensures NewLeak(d, ExpirePlan(d, p), u) <==> u == d.plans[p].task && LastReview(d, p) && ActiveTask(d.tasks[u].status)
  {
    var t := d.plans[p].task;
    var d1 := SetPlan(d, p, PlanExpired);
    assert PlanRow(d, p);
    SetPlanKeeps(d, p, PlanExpired);
    LastReviewSettles(d, p, PlanExpired);
    NoOpenPlanLeak(d, p, PlanExpired);
    if SettleActs(d1, t) { SettleLeaksAt(d1, t, u); }
  }

  lemma SettleLeaksAt(d: Db, t: TaskId, u: TaskId)
    requires Inv(d) && SettleActs(d, t) && d.tasks[t].kind.Request?
    ensures NewLeak(d, Settle(d, t), u) <==> u == t && ActiveTask(d.tasks[t].status)
  {
    SettleLeaksExactly(d, t);
    SettleLeaksOnly(d, t, u);
    hide Inv, Settle, SettleActs, NewLeak;
    if v :| NewLeak(d, Settle(d, t), v) { SettleLeaksOnly(d, t, v); }
  }

  lemma SettleLeaksOnly(d: Db, t: TaskId, u: TaskId)
    requires Inv(d) && SettleActs(d, t) && d.tasks[t].kind.Request?
    ensures NewLeak(d, Settle(d, t), u) ==> u == t
  {
    hide NewLeak, SettleWith, SettleEnded, Unresolved, HasUnfinishedPlan;
    if TerminalTask(d.tasks[t].status) {
      SettleEndedLeaks(d, t, Unresolved(d, t, true), u);
    } else {
      SettleWithLeaks(d, t, Unresolved(StopChildren(d, ChildrenOf(d, t)), t, true), u);
    }
  }

  // What the first expiry of the pass does to the row of `u` and to the plans.
  lemma FirstExpiry(d: Db, p: PlanId, u: TaskId)
    requires Inv(d) && p in d.plans && OpenPlan(d.plans[p].status)
    ensures var e := ExpirePlan(d, p);
      && e.plans == d.plans[p := d.plans[p].(status := PlanExpired)] && (LiveClaim(e, u) <==> LiveClaim(d, u))
      && (u in d.tasks <==> u in e.tasks)
      && (u in d.tasks && u != d.plans[p].task ==> (ActiveTask(e.tasks[u].status) <==> ActiveTask(d.tasks[u].status)))
  {
    assert PlanRow(d, p);
    FirstReaches(d, p, d.plans[p].task);
    if u in d.tasks { FirstReaches(d, p, u); }
    SameClaims(d, ExpirePlan(d, p));
    hide ExpirePlan;
  }

  // An expiry that leaves another review of its request open changes nothing else.
  lemma NotLastExpiry(d: Db, p: PlanId)
    requires Inv(d) && p in d.plans && OpenPlan(d.plans[p].status)
    requires exists o :: o != p && o in d.plans && d.plans[o].task == d.plans[p].task && Unfinished(d.plans[o].status)
    ensures !LastReview(d, p) && ExpirePlan(d, p) == SetPlan(d, p, PlanExpired)
  {
    var o :| o != p && o in d.plans && d.plans[o].task == d.plans[p].task && Unfinished(d.plans[o].status);
    assert SetPlan(d, p, PlanExpired).plans[o] == d.plans[o];
  }

  // Closing plan `ps[0]` leaves the due leaks of the rest as they were, where activity and
  // claims are as they were and the plan is not the last review of `u`.
  lemma DueElsewhere(d: Db, e: Db, ps: seq<PlanId>, u: TaskId)
    requires ps != [] && AllOpen(d, ps) && e.plans == d.plans[ps[0] := d.plans[ps[0]].(status := PlanExpired)]
    requires (u in d.tasks <==> u in e.tasks) && (LiveClaim(e, u) <==> LiveClaim(d, u))
    requires u in d.tasks ==> (ActiveTask(e.tasks[u].status) <==> ActiveTask(d.tasks[u].status))
    requires d.plans[ps[0]].task != u || exists o :: o in ps[1..] && d.plans[o].task == u
    ensures LeakDue(d, ps, u) <==> LeakDue(e, ps[1..], u)
  {
    hide LiveClaim;
    forall o | o in ps[1..] ensures o != ps[0] && o in ps {}
    forall o | o in ps && o != ps[0] ensures o in ps[1..] {}
  }

  // The last review in the pass decides.
  lemma DueAtLast(d: Db, e: Db, ps: seq<PlanId>)
    requires Inv(d) && ps != [] && AllOpen(d, ps) && e.plans == d.plans[ps[0] := d.plans[ps[0]].(status := PlanExpired)]
    requires forall o | o in ps[1..] :: d.plans[o].task != d.plans[ps[0]].task
    ensures var u := d.plans[ps[0]].task;
      (LeakDue(d, ps, u) <==> u in d.tasks && LastReview(d, ps[0]) && ActiveTask(d.tasks[u].status)) && !LeakDue(e, ps[1..], u)
  {
    assert PlanRow(d, ps[0]);
    hide Inv, LiveClaim;
    forall o | o in ps && o != ps[0] ensures o in ps[1..] {}
    forall o | o in ps[1..] ensures o != ps[0] && o in ps {}
  }

  lemma AllOpenNext(d: Db, e: Db, ps: seq<PlanId>)
    requires ps != [] && AllOpen(d, ps) && e.plans == d.plans[ps[0] := d.plans[ps[0]].(status := PlanExpired)]
    ensures AllOpen(e, ps[1..])
  {
    forall o | o in ps[1..] ensures o != ps[0] && o in ps {}
  }

  // What the rest of the pass is due to leak does not depend on its first expiry, except for
  // the request that this one settles.
  lemma DueAfter(d: Db, ps: seq<PlanId>, u: TaskId)
    requires Inv(d) && ps != [] && AllOpen(d, ps)
    ensures AllOpen(ExpirePlan(d, ps[0]), ps[1..])
    ensures LeakDue(d, ps, u) <==> NewLeak(d, ExpirePlan(d, ps[0]), u) || LeakDue(ExpirePlan(d, ps[0]), ps[1..], u)
  {
    var p, e := ps[0], ExpirePlan(d, ps[0]);
    ExpireLeaks(d, p, u);
    FirstExpiry(d, p, u);
    AllOpenNext(d, e, ps);
    hide Inv, LiveClaim, NewLeak, LeakDue;
    if o :| o in ps[1..] && d.plans[o].task == d.plans[p].task {
      assert o != p;
      NotLastExpiry(d, p);
      assert e.tasks == d.tasks;
      DueElsewhere(d, e, ps, u);
    } else if d.plans[p].task == u {
      hide ExpirePlan;
      DueAtLast(d, e, ps);
    } else {
      hide ExpirePlan;
      DueElsewhere(d, e, ps, u);
    }
  }

  lemma {:induction false} PassLeaks(d: Db, ps: seq<PlanId>, u: TaskId)
    requires Inv(d) && AllOpen(d, ps)
    ensures NewLeak(d, ExpirePlans(d, ps), u) <==> LeakDue(d, ps, u)
    decreases |ps|
  {
    hide Inv, Leaked, ExpirePlan;
    if ps != [] {
      var d1 := ExpirePlan(d, ps[0]);
      ExpirePlanKeeps(d, ps[0]);
      DueAfter(d, ps, u);
      PassLeaks(d1, ps[1..], u);
      ExpirePlansKeep(d1, ps[1..]);
      assert LeakStays(d, d1, u) && LeakStays(d1, ExpirePlans(d1, ps[1..]), u);
    }
  }

  lemma ExpirePlanKeeps(d: Db, p: PlanId)
    requires Inv(d)
    ensures Keeps(d, ExpirePlan(d, p))
  {
    if p in d.plans && OpenPlan(d.plans[p].status) { DecideKeeps(d, p, PlanExpired); } else { KeepsSelf(d); }
  }

  lemma {:induction false} StaleLeaksNothing(d: Db, ts: seq<TaskId>, u: TaskId)
    requires Inv(d)
    requires forall i, j :: 0 <= i < j < |ts| ==> ts[i] != ts[j]
    requires forall i :: 0 <= i < |ts| ==> ts[i] in d.tasks && TerminalTask(d.tasks[ts[i]].status)
    ensures !NewLeak(d, SettleAll(d, ts), u) && Keeps(d, SettleAll(d, ts))
    decreases |ts|
  {
    SettleAllKeeps(d, ts);
    hide Inv, Leaked, Settle;
    if ts != [] {
      var d1 := Settle(d, ts[0]);
      SettleKeeps(d, ts[0]);
      EndedLeaksNothing(d, ts[0], u);
      forall i | 0 <= i < |ts[1..]| ensures ts[1..][i] in d1.tasks && TerminalTask(d1.tasks[ts[1..][i]].status) {
        assert ts[1..][i] == ts[i + 1] && ts[0] != ts[i + 1];
        SettleTerminal(d, ts[0], ts[i + 1]);
      }
      StaleLeaksNothing(d1, ts[1..], u);
    }
  }

  lemma EndedLeaksNothing(d: Db, t: TaskId, u: TaskId)
    requires Inv(d) && t in d.tasks && TerminalTask(d.tasks[t].status)
    ensures !NewLeak(d, Settle(d, t), u)
  {
    SettleEndedLeaks(d, t, Unresolved(d, t, true), u);
  }

  ghost predicate ExpiryLeaks(d: Db, u: TaskId) {
    && u in d.tasks && ActiveTask(d.tasks[u].status) && !LiveClaim(d, u)
    && (exists p :: ExpiredPlan(d, p) && d.plans[p].task == u) && ReviewsOver(d, u)
  }

  // A whole expiry pass, in whatever row order, leaks the claim of a task if and only if the
  // task is still running or stopping with an expired claim, one of its plans has expired, and
  // so has every plan of it that is not finished.
  lemma SettleExpiredLeaksExactly(d: Db, ps: seq<PlanId>, ts: seq<TaskId>, u: TaskId)
    requires Inv(d) && Enumerates(ps, set p | p in d.plans && ExpiredPlan(d, p))
    requires Enumerates(ts, set t | t in ExpirePlans(d, ps).tasks && StaleReview(ExpirePlans(d, ps), t))
    ensures NewLeak(d, SettleExpired(d, ps, ts), u) <==> ExpiryLeaks(d, u)
  {
    var d1 := ExpirePlans(d, ps);
    PassIsDue(d, ps);
    StaleIsDue(d1, ts);
    ExpirePlansKeep(d, ps);
    assert SettleExpired(d, ps, ts) == SettleAll(d1, ts);
    hide Inv, Leaked, SettleExpired, ExpirePlans, SettleAll, StaleReview;
    PassLeaks(d, ps, u);
    StaleLeaksNothing(d1, ts, u);
    assert LeakStays(d, d1, u) && LeakStays(d1, SettleAll(d1, ts), u);
    hide LiveClaim;
    DueIsExpired(d, ps, u);
  }

  lemma DueIsExpired(d: Db, ps: seq<PlanId>, u: TaskId)
    requires Enumerates(ps, set p | p in d.plans && ExpiredPlan(d, p)) && forall p | p in ps :: ExpiredPlan(d, p)
    ensures LeakDue(d, ps, u) <==> ExpiryLeaks(d, u)
  {
    hide LiveClaim;
    var due := set p | p in d.plans && ExpiredPlan(d, p);
    forall p | ExpiredPlan(d, p) ensures p in ps {
      assert p in due;
      assert p in (set x | x in ps);
    }
  }

  // ---------- no other transaction leaks ----------

  ghost predicate LeakOrigin(s: Step) { s.RevokeStep? || s.SettleExpiredStep? || s.ResolveStep? }

  // The claim stays as it was, and so does the row of every task that is blocked afterwards.
  ghost predicate BlocksNothing(d: Db, e: Db, u: TaskId) {
    && d.clock <= e.clock
    && ((e.tasks == d.tasks && e.claims == d.claims)
        || (&& (OpenClaim(e, u) ==> OpenClaim(d, u) && d.claims[u].exec == e.claims[u].exec)
            && (u in e.tasks && e.tasks[u].status.Blocked? && OpenClaim(e, u) ==> u in d.tasks && d.tasks[u].status.Blocked?)))
  }

  lemma BlocksNothingLeaksNothing(d: Db, e: Db, u: TaskId)
    requires Inv(d) && BlocksNothing(d, e, u)
    ensures !NewLeak(d, e, u)
  {
    assert ClaimRow(d, u);
  }

  lemma CancelBlocksNothing(d: Db, t: TaskId, owner: Owner, selected: bool, u: TaskId)
    ensures BlocksNothing(d, CancelTask(d, t, owner, selected), u)
  {
    hide Unresolved, Withdraw;
    if CancelActs(d, t, owner, selected) {
      var w := Withdraw(d, t);
      WithdrawFrame(d, t);
      WithdrawKeepsRow(d, t);
      WithdrawBlocksNobody(d, t, u);
      if Stoppable(d, t) { AskBlocksNothing(d, w, t, u); } else { CloseBlocksNothing(d, w, t, Unresolved(w, t, true), u); }
    }
  }

  lemma WithdrawBlocksNobody(d: Db, t: TaskId, u: TaskId)
    ensures var w := Withdraw(d, t); u in w.tasks && w.tasks[u].status.Blocked? ==> u in d.tasks && d.tasks[u].status.Blocked?
  {
  }

  lemma AskBlocksNothing(d: Db, w: Db, t: TaskId, u: TaskId)
    requires w.claims == d.claims && w.clock == d.clock && t in w.tasks && t in w.claims && w.claims[t].exec in w.execs
    requires u in w.tasks && w.tasks[u].status.Blocked? ==> u in d.tasks && d.tasks[u].status.Blocked?
    ensures BlocksNothing(d, AskToStop(w, t), u)
  {
  }

  lemma CloseBlocksNothing(d: Db, w: Db, t: TaskId, uncertain: bool, u: TaskId)
    requires w.claims == d.claims && w.clock == d.clock && t in w.tasks
    requires u in w.tasks && w.tasks[u].status.Blocked? ==> u in d.tasks && d.tasks[u].status.Blocked?
    ensures BlocksNothing(d, CloseTask(w, t, uncertain), u)
  {
  }

  lemma InsertBlocksNothing(d: Db, i: Intake, kind: Kind, parent: Option<TaskId>, u: TaskId)
    ensures BlocksNothing(d, Insert(d, i, kind, parent), u)
  {
  }

  lemma SubmitBlocksNothing(d: Db, i: Intake, u: TaskId)
    ensures BlocksNothing(d, SubmitRequest(d, i), u)
  {
    if CanSubmit(d, i) {
      var d1 := Insert(d, i, Request, i.parent);
      InsertBlocksNothing(d, i, Request, i.parent, u);
      if i.conversation.Some? {
        var e := Bind(d1, i.task, SessionKey(i.owner, i.conversation.value, i.workspace));
        assert e.claims == d1.claims && e.tasks == d1.tasks && e.clock == d1.clock;
      }
    }
  }

  lemma ApproveAndSubmitBlocksNothing(d: Db, i: Intake, p: PlanId, reviewed: seq<Change>, draft: bool, u: TaskId)
    ensures BlocksNothing(d, ApproveAndSubmit(d, i, p, reviewed, draft), u)
  {
    if !HasApplyTask(d, p) && CanApprove(d, p, i.owner, reviewed, draft) {
      var d1 := SetPlan(d, p, PlanApproved);
      var j := i.(workspace := d.plans[p].workspace, source := None);
      if CanSubmitApply(d1, j, p) { InsertBlocksNothing(d1, j, Apply(p), Some(d1.plans[p].task), u); }
    }
  }

  lemma SubmitApplyBlocksNothing(d: Db, i: Intake, p: PlanId, u: TaskId)
    ensures BlocksNothing(d, SubmitApply(d, i, p), u)
  {
    if CanSubmitApply(d, i, p) { InsertBlocksNothing(d, i, Apply(p), Some(d.plans[p].task), u); }
  }

  lemma AssessBlocksNothing(d: Db, t: TaskId, priority: int, u: TaskId)
    ensures BlocksNothing(d, Assess(d, t, priority), u)
  {
    if t in d.tasks { assert Assess(d, t, priority).claims == d.claims; }
  }

  lemma IntakeBlocksNothing(d: Db, s: Step, u: TaskId)
    requires IntakeStep(s)
    ensures BlocksNothing(d, Next(d, s), u)
  {
    hide Tick, RegisterWorker, Heartbeat, SubmitRequest, SubmitApply, ApproveAndSubmit, ApprovePlan, RevokePlan, ProposePlan;
    hide StartFailure, Recover, ClaimNext, Renew, Finish, Resume, CancelTask, SettleExpired, BeginApply, MarkJournal, CommitApply;
    hide FailApply, CrashApply, ResolvePlan, ClaimDelivery, SettleDelivery, Acknowledge, ResetSession, Assess;
    match s {
      case SubmitStep(i) => SubmitBlocksNothing(d, i, u);
      case ApproveAndSubmitStep(i, p, reviewed, draft) => ApproveAndSubmitBlocksNothing(d, i, p, reviewed, draft, u);
      case SubmitApplyStep(i, p) => SubmitApplyBlocksNothing(d, i, p, u);
      case ResetStep(k) => ResetFrame(d, k);
      case AssessStep(t, priority) => AssessBlocksNothing(d, t, priority, u);
    }
  }

  lemma ReviewBlocksNothing(d: Db, s: Step, u: TaskId)
    requires Inv(d) && PlanReview(s) && !LeakOrigin(s)
    ensures BlocksNothing(d, Next(d, s), u)
  {
    hide Tick, RegisterWorker, Heartbeat, SubmitRequest, SubmitApply, ApproveAndSubmit, ApprovePlan, RevokePlan, ProposePlan;
    hide StartFailure, Recover, ClaimNext, Renew, Finish, Resume, CancelTask, SettleExpired, BeginApply, MarkJournal, CommitApply;
    hide FailApply, CrashApply, ResolvePlan, ClaimDelivery, SettleDelivery, Acknowledge, ResetSession, Assess;
    match s {
      case CancelStep(t, owner, selected) => CancelBlocksNothing(d, t, owner, selected, u);
      case ApproveStep(p, owner, reviewed, draft) =>
        ApproveFrame(d, p, owner, reviewed, draft);
      case ProposeStep(p, t, owner, changes, drafted, draft) => ProposeFrame(d, p, t, owner, changes, drafted, draft);
    }
  }

  lemma FinishBlocksNothing(d: Db, r: Record, outcome: Outcome, question: bool, draftLive: bool, u: TaskId)
    ensures BlocksNothing(d, Finish(d, r, outcome, question, draftLive), u)
  {
    if FinishCommits(d, r, outcome, draftLive) {
      var o := Committed(d, r, outcome, draftLive);
      assert BlocksNothing(d, Commit(d, r, o), u);
    }
  }

  lemma RecoverBlocksNothing(d: Db, u: TaskId)
    requires Inv(d)
    ensures BlocksNothing(d, Recover(d), u)
  {
    assert TaskRow(d, u) && ClaimRow(d, u);
  }

  lemma StartFailureBlocksNothing(d: Db, t: TaskId, owner: Owner, x: ExecId, u: TaskId)
    ensures BlocksNothing(d, StartFailure(d, t, owner, x), u)
  {
    if CanRecordFailure(d, t, owner, x) { assert BlocksNothing(d, RecordFailure(d, t, x), u); }
  }

  lemma RenewBlocksNothing(d: Db, r: Record, u: TaskId)
    ensures BlocksNothing(d, Renew(d, r), u)
  {
    if CanRenew(d, r) { assert Renew(d, r).tasks == d.tasks; }
  }

  lemma ResumeBlocksNothing(d: Db, t: TaskId, owner: Owner, w: WorkerId, u: TaskId)
    ensures BlocksNothing(d, Resume(d, t, owner, w), u)
  {
    if CanResume(d, t, owner, w) { assert Resume(d, t, owner, w).claims == d.claims; }
  }

  lemma AttemptBlocksNothing(d: Db, s: Step, u: TaskId)
    requires Inv(d) && AttemptStep(s) && !s.ClaimStep?
    ensures BlocksNothing(d, Next(d, s), u)
  {
    hide Tick, RegisterWorker, Heartbeat, SubmitRequest, SubmitApply, ApproveAndSubmit, ApprovePlan, RevokePlan, ProposePlan;
    hide StartFailure, Recover, ClaimNext, Renew, Finish, Resume, CancelTask, SettleExpired, BeginApply, MarkJournal, CommitApply;
    hide FailApply, CrashApply, ResolvePlan, ClaimDelivery, SettleDelivery, Acknowledge, ResetSession, Assess;
    match s {
      case FinishStep(r, outcome, question, draftLive) => FinishBlocksNothing(d, r, outcome, question, draftLive, u);
      case RecoverStep => RecoverBlocksNothing(d, u);
      case StartFailureStep(t, owner, x) => StartFailureBlocksNothing(d, t, owner, x, u);
      case RenewStep(r) => RenewBlocksNothing(d, r, u);
      case ResumeStep(t, owner, w) => ResumeBlocksNothing(d, t, owner, w, u);
    }
  }

  lemma OtherBlocksNothing(d: Db, s: Step, u: TaskId)
    requires !IntakeStep(s) && !PlanReview(s) && !AttemptStep(s)
    ensures BlocksNothing(d, Next(d, s), u)
  {
    if ApplyStep(s) { ApplyFrame(d, s); } else { OtherFrame(d, s); }
  }

  // Only revoking, expiring or resolving a plan can leak a claim.
  lemma OnlyClosingLeaks(d: Db, s: Step, u: TaskId)
    requires Inv(d) && !LeakOrigin(s)
    ensures !NewLeak(d, Next(d, s), u)
  {
    if s.ClaimStep? {
      assert ClaimRow(d, u);
    } else {
      if IntakeStep(s) { IntakeBlocksNothing(d, s, u); }
      else if PlanReview(s) { ReviewBlocksNothing(d, s, u); }
      else if AttemptStep(s) { AttemptBlocksNothing(d, s, u); }
      else { OtherBlocksNothing(d, s, u); }
      BlocksNothingLeaksNothing(d, Next(d, s), u);
    }
  }

  // ---------- for ever ----------

  // A leaked claim stays leaked whatever happens next, and once the leaks fill the slots no
  // task is ever claimed again with that many slots.
  lemma LeakedSlotsStarve(states: seq<Db>, steps: seq<Step>, i: nat, j: nat, lost: set<TaskId>, w: WorkerId, slots: int, answer: Option<TaskId>)
    requires Run(states, steps) && i <= j < |states|
    requires forall u | u in lost :: Leaked(states[i], u)
    requires slots <= |lost| && ClaimAnswers(states[j], w, slots, answer)
    ensures answer == None
    ensures forall u | u in lost :: Leaked(states[j], u)
  {
    Later(states, steps, i, j);
    forall u | u in lost ensures Leaked(states[j], u) && u in OpenClaims(states[j]) { assert LeakStays(states[i], states[j], u); }
    Smaller(lost, OpenClaims(states[j]));
  }
}
