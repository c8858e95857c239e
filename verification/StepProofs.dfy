// The transactions that are made of several small steps or that create rows.
module StepProofs {
  import opened Options
  import opened FilePlans
  import opened LedgerTypes
  import opened Transactions
  import opened LedgerInvariants
  import opened LedgerProofs
  import opened CalmProofs

  lemma SettleEndedKeeps(d: Db, t: TaskId, uncertain: bool)
    requires Inv(d) && t in d.tasks && TerminalTask(d.tasks[t].status)
    ensures Keeps(d, SettleEnded(d, t, uncertain))
  {
    var d1 := CloseReviews(d, t, uncertain);
    CloseReviewsKeeps(d, t, uncertain);
    if uncertain {
      assert ClaimRow(d, t);
      HoldTaskKeeps(d1, t, Blocked, d.tasks[t].eligible);
      KeepsTransitive(d, d1, SettleEnded(d, t, uncertain));
    }
  }

  lemma SettleWithKeeps(d: Db, t: TaskId, uncertain: bool)
    requires Inv(d) && t in d.tasks && d.tasks[t].kind.Request?
    requires OpenClaim(d, t) ==> uncertain && d.claims[t].expires <= d.clock
    ensures Keeps(d, SettleWith(d, t, uncertain))
  {
    var d1 := StopChildren(d, ChildrenOf(d, t));
    StopChildrenKeeps(d, ChildrenOf(d, t));
    var d2 := CloseReviews(d1, t, uncertain);
    CloseReviewsKeeps(d1, t, uncertain);
    HoldTaskKeeps(d2, t, if uncertain then Blocked else Cancelled, false);
    KeepsTransitive(d, d1, d2);
    KeepsTransitive(d, d2, SettleWith(d, t, uncertain));
  }

  lemma SettleKeeps(d: Db, t: TaskId)
    requires Inv(d)
    requires t in d.tasks ==> d.tasks[t].kind.Request? || TerminalTask(d.tasks[t].status)
    ensures Keeps(d, Settle(d, t))
  {
    if !SettleActs(d, t) {
      KeepsSelf(d);
    } else if TerminalTask(d.tasks[t].status) {
      SettleEndedKeeps(d, t, Unresolved(d, t, true));
    } else {
      var d1 := StopChildren(d, ChildrenOf(d, t));
      StopChildrenKeeps(d, ChildrenOf(d, t));
      assert ClaimRow(d1, t);
      if OpenClaim(d, t) { ActiveIsUnresolved(d1, t, d1.claims[t].exec, true); }
      SettleWithKeeps(d, t, Unresolved(d1, t, true));
    }
  }

  lemma DecideKeeps(d: Db, p: PlanId, s: PlanStatus)
    requires Inv(d) && p in d.plans && OpenPlan(d.plans[p].status) && (s.PlanRevoked? || s.PlanExpired?)
    ensures Keeps(d, Settle(SetPlan(d, p, s), d.plans[p].task))
  {
    var d1 := SetPlan(d, p, s);
    SetPlanKeeps(d, p, s);
    assert PlanRow(d, p);
    SettleKeeps(d1, d.plans[p].task);
    KeepsTransitive(d, d1, Settle(d1, d.plans[p].task));
  }

  lemma ApproveKeeps(d: Db, p: PlanId, owner: Owner, reviewed: seq<Change>, draft: bool)
    requires Inv(d)
    ensures Keeps(d, ApprovePlan(d, p, owner, reviewed, draft))
  {
    if CanApprove(d, p, owner, reviewed, draft) {
      SetPlanKeeps(d, p, PlanApproved);
    } else {
      KeepsSelf(d);
    }
  }

  lemma RevokeKeeps(d: Db, p: PlanId, owner: Owner)
    requires Inv(d)
    ensures Keeps(d, RevokePlan(d, p, owner))
  {
    if p in d.plans && d.plans[p].owner == owner && OpenPlan(d.plans[p].status) {
      DecideKeeps(d, p, PlanRevoked);
    } else {
      KeepsSelf(d);
    }
  }

  lemma {:induction false} ExpirePlansKeep(d: Db, ps: seq<PlanId>)
    requires Inv(d)
    ensures Keeps(d, ExpirePlans(d, ps))
    decreases |ps|
  {
    if ps == [] {
      KeepsSelf(d);
    } else {
      var d1 := ExpirePlan(d, ps[0]);
      if ps[0] in d.plans && OpenPlan(d.plans[ps[0]].status) { DecideKeeps(d, ps[0], PlanExpired); } else { KeepsSelf(d); }
      ExpirePlansKeep(d1, ps[1..]);
      KeepsTransitive(d, d1, ExpirePlans(d1, ps[1..]));
    }
  }

  lemma SettleEndedOthers(d: Db, t: TaskId, uncertain: bool, other: TaskId)
    requires t in d.tasks && other in d.tasks && t != other
    ensures var e := SettleEnded(d, t, uncertain); other in e.tasks && e.tasks[other] == d.tasks[other]
  {
  }

  // Settling one ended task leaves every other task as it was.
  lemma SettleTerminal(d: Db, t: TaskId, other: TaskId)
    requires t in d.tasks && other in d.tasks && TerminalTask(d.tasks[t].status) && t != other
    ensures var e := Settle(d, t); other in e.tasks && e.tasks[other] == d.tasks[other]
  {
    SettleEndedOthers(d, t, Unresolved(d, t, true), other);
  }

  lemma {:induction false} SettleAllKeeps(d: Db, ts: seq<TaskId>)
    requires Inv(d)
    requires forall i, j :: 0 <= i < j < |ts| ==> ts[i] != ts[j]
    requires forall i :: 0 <= i < |ts| ==> ts[i] in d.tasks && TerminalTask(d.tasks[ts[i]].status)
    ensures Keeps(d, SettleAll(d, ts))
    decreases |ts|
  {
    if ts == [] {
      KeepsSelf(d);
    } else {
      var d1 := Settle(d, ts[0]);
      SettleKeeps(d, ts[0]);
      forall i | 0 <= i < |ts[1..]| ensures ts[1..][i] in d1.tasks && TerminalTask(d1.tasks[ts[1..][i]].status) {
        assert ts[1..][i] == ts[i + 1] && ts[0] != ts[i + 1];
        SettleTerminal(d, ts[0], ts[i + 1]);
      }
      SettleAllKeeps(d1, ts[1..]);
      KeepsTransitive(d, d1, SettleAll(d1, ts[1..]));
    }
  }

  lemma SettleExpiredKeeps(d: Db, ps: seq<PlanId>, ts: seq<TaskId>)
    requires Inv(d)
    ensures Keeps(d, SettleExpired(d, ps, ts))
  {
    var d1 := ExpirePlans(d, ps);
    ExpirePlansKeep(d, ps);
    var stale := set t | t in d1.tasks && StaleReview(d1, t);
    if Enumerates(ps, set p | p in d.plans && ExpiredPlan(d, p)) && Enumerates(ts, stale) {
      forall i | 0 <= i < |ts| ensures ts[i] in d1.tasks && TerminalTask(d1.tasks[ts[i]].status) {
        assert ts[i] in ts;
        assert ts[i] in stale;
      }
      SettleAllKeeps(d1, ts);
      KeepsTransitive(d, d1, SettleAll(d1, ts));
    } else {
      KeepsSelf(d);
    }
  }

  // Withdrawing the open plans of a task leaves its own row alone.
  lemma WithdrawSpares(d: Db, t: TaskId)
    requires t in d.tasks && TaskRow(d, t)
    ensures var w := Withdraw(d, t);
      w.plans == RevokeOpen(d.plans, t) && w.claims == d.claims && t in w.tasks && w.tasks[t] == d.tasks[t]
      && w.execs.Keys == d.execs.Keys
  {
    var cs := RevokedChildren(d, t);
    assert t !in cs;
    var s := StopChildren(d, cs);
    assert s.tasks[t] == d.tasks[t] && s.plans == d.plans;
  }

  lemma CancelKeeps(d: Db, t: TaskId, owner: Owner, selected: bool)
    requires Inv(d)
    ensures Keeps(d, CancelTask(d, t, owner, selected))
  {
    if !CancelActs(d, t, owner, selected) {
      KeepsSelf(d);
    } else {
      var e := CancelTask(d, t, owner, selected);
      var s := StopChildren(d, RevokedChildren(d, t));
      var w := RevokePlans(s, t);
      StopChildrenKeeps(d, RevokedChildren(d, t));
      RevokePlansKeeps(s, t);
      KeepsTransitive(d, s, w);
      assert TaskRow(d, t) && ClaimRow(d, t);
      WithdrawSpares(d, t);
      if Stoppable(d, t) {
        assert ClaimRow(w, t);
        AskToStopKeeps(w, t);
      } else {
        if Leaked(d, t) { ActiveIsUnresolved(d, t, d.claims[t].exec, true); }
        assert !Leaked(w, t);
        CloseTaskKeeps(w, t, Unresolved(w, t, true));
      }
      KeepsTransitive(d, w, e);
    }
  }

  lemma ResolveKeeps(d: Db, p: PlanId, owner: Owner, complete: bool)
    requires Inv(d)
    ensures Keeps(d, ResolvePlan(d, p, owner, complete))
  {
    if CanResolve(d, p, owner) {
      var d1 := RecordResolution(d, p, complete);
      RecordResolutionKeeps(d, p, complete);
      assert OpenClaim(d, d.plans[p].task) ==> !LiveClaim(d, d.plans[p].task);
      VerdictKeeps(d1, p, complete);
      KeepsTransitive(d, d1, PassVerdict(d1, p, complete));
    } else {
      KeepsSelf(d);
    }
  }
}
