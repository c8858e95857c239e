// What proposing, approving, expiring and resolving plans do, field by field.
module ReviewLaws {
  import opened Options
  import opened FilePlans
  import opened LedgerTypes
  import opened Transactions
  import opened LedgerInvariants
  import opened LedgerProofs
  import opened CalmProofs
  import opened StepProofs
  import opened Protocol
  import opened Frames
  import opened Effects
  import opened ClosingCauses
  import opened ControlLaws

  // ---------- proposals and approvals ----------

  // A creation has no preimage, a deletion no new content, a modification both.
  predicate Sound(c: Change) {
    match c.action
    case Create => c.before.None? && c.after.Some?
    case Modify => c.before.Some? && c.after.Some?
    case Delete => c.before.Some? && c.after.None?
  }

  // No file is changed twice.
  predicate Acceptable(changes: seq<Change>) {
    && (forall i :: 0 <= i < |changes| ==> Sound(changes[i]))
    && forall i, j :: 0 <= i < |changes| && 0 <= j < |changes| && changes[i].path == changes[j].path ==> i == j
  }

  lemma AcceptableExactly(changes: seq<Change>)
    ensures Acceptable(changes) <==> ValidPlan(changes)
  {
    forall i | 0 <= i < |changes| ensures Sound(changes[i]) <==> WellFormed(changes[i]) {}
    hide Sound, WellFormed;
  }

  // A proposal for a request of the owner adds one plan, open for an hour, that is approved at
  // once exactly if nobody drafted it and it only creates files; it replaces the request's plans
  // under review.
  lemma ProposeExactly(d: Db, p: PlanId, t: TaskId, owner: Owner, changes: seq<Change>, drafted: bool, draft: bool)
    ensures var e := ProposePlan(d, p, t, owner, changes, drafted, draft);
      if draft && p !in d.plans && t in d.tasks && d.tasks[t].owner == owner && d.tasks[t].kind.Request? && Acceptable(changes) then
        && e == d.(plans := e.plans) && e.plans.Keys == d.plans.Keys + {p}
        && (forall q | q in d.plans :: RevokedIf(t, d.plans[q], e.plans[q]))
        && e.plans[p] == Plan(t, owner, d.tasks[t].workspace, changes, changes, e.plans[p].status, d.clock + 3600, d.clock)
        && e.plans[p].status == if !drafted && forall i :: 0 <= i < |changes| ==> changes[i].action.Create? then PlanApproved else PlanPending
      else e == d
  {
    AcceptableExactly(changes);
    hide ValidPlan, Acceptable;
    if CanPropose(d, p, t, owner, changes, draft) {}
  }

  // The request is one that may still change files.
  predicate Wanted(d: Db, t: TaskId) {
    t in d.tasks && (d.tasks[t].status.Queued? || d.tasks[t].status.Running? || d.tasks[t].status.AwaitingApproval?)
  }

  // The owner has reviewed exactly what the plan under review will do, in time.
  predicate MayApprove(d: Db, p: PlanId, owner: Owner, reviewed: seq<Change>) {
    && p in d.plans && d.plans[p].owner == owner && (d.plans[p].status.PlanPending? || d.plans[p].status.PlanApproved?)
    && Wanted(d, d.plans[p].task) && d.clock < d.plans[p].expires && d.plans[p].hash == reviewed
  }

  lemma ApproveExactly(d: Db, p: PlanId, owner: Owner, reviewed: seq<Change>, draft: bool)
    ensures var e := ApprovePlan(d, p, owner, reviewed, draft);
      if draft && MayApprove(d, p, owner, reviewed) then e == d.(plans := d.plans[p := d.plans[p].(status := PlanApproved)]) else e == d
  {
    if CanApprove(d, p, owner, reviewed, draft) {}
  }

  // ---------- the expiry pass ----------

  predicate IsDue(d: Db, p: PlanId) {
    p in d.plans && (d.plans[p].status.PlanPending? || d.plans[p].status.PlanApproved?) && d.plans[p].expires <= d.clock
  }

  // The pass lists the plans that are due and, after their expiry, the reviews left open.
  ghost predicate FullPass(d: Db, ps: seq<PlanId>, ts: seq<TaskId>) {
    && (forall p :: p in ps <==> IsDue(d, p)) && (forall i, j :: 0 <= i < j < |ps| ==> ps[i] != ps[j])
    && var c := ExpirePlans(d, ps);
    && (forall t :: t in ts <==> StaleReview(c, t)) && (forall i, j :: 0 <= i < j < |ts| ==> ts[i] != ts[j])
  }

  lemma FullPassExactly(d: Db, ps: seq<PlanId>, ts: seq<TaskId>)
    ensures if FullPass(d, ps, ts) then SettleExpired(d, ps, ts) == SettleAll(ExpirePlans(d, ps), ts) else SettleExpired(d, ps, ts) == d
  {
    hide ExpirePlans, SettleAll, StaleReview;
    var due := set p | p in d.plans && ExpiredPlan(d, p);
    var c := ExpirePlans(d, ps);
    var stale := set t | t in c.tasks && StaleReview(c, t);
    forall p ensures p in due <==> IsDue(d, p) {}
    Listed(ps, due);
    Listed(ts, stale);
    forall t ensures t in stale <==> StaleReview(c, t) { StaleIsKnown(c, t); }
  }

  lemma StaleIsKnown(d: Db, t: TaskId)
    ensures StaleReview(d, t) ==> t in d.tasks
  {
  }

  lemma Listed(order: seq<nat>, items: set<nat>)
    ensures Enumerates(order, items) <==>
      (forall x :: x in order <==> x in items) && forall i, j :: 0 <= i < j < |order| ==> order[i] != order[j]
  {
    var s := set x | x in order;
    forall x ensures x in s <==> x in order {}
    if s == items { forall x ensures x in order <==> x in items { assert x in s <==> x in order; } }
  }

  lemma {:induction false} ExpiresExactly(d: Db, ps: seq<PlanId>)
    requires forall i, j :: 0 <= i < j < |ps| ==> ps[i] != ps[j]
    ensures var e := ExpirePlans(d, ps);
      e.plans.Keys == d.plans.Keys
      && forall p | p in d.plans :: e.plans[p] == if p in ps && OpenPlan(d.plans[p].status) then d.plans[p].(status := PlanExpired) else d.plans[p]
    decreases |ps|
  {
    hide Settle;
    if ps != [] {
      var d1 := ExpirePlan(d, ps[0]);
      if ps[0] in d.plans { SettleFrame(SetPlan(d, ps[0], PlanExpired), d.plans[ps[0]].task); }
      ExpiresExactly(d1, ps[1..]);
      forall p | p in d.plans ensures p in ps <==> p == ps[0] || p in ps[1..] {}
    }
  }

  // A full pass expires every plan that is due and no other.
  lemma PassExpiresExactly(d: Db, ps: seq<PlanId>, ts: seq<TaskId>)
    requires FullPass(d, ps, ts)
    ensures var e := SettleExpired(d, ps, ts);
      && e == d.(tasks := e.tasks, execs := e.execs, plans := e.plans) && e.plans.Keys == d.plans.Keys
      && forall p | p in d.plans :: e.plans[p] == if IsDue(d, p) then d.plans[p].(status := PlanExpired) else d.plans[p]
  {
    FullPassExactly(d, ps, ts);
    ExpiresExactly(d, ps);
    SettleAllFrame(ExpirePlans(d, ps), ts);
    SettleExpiredFrame(d, ps, ts);
    hide ExpirePlans, SettleAll, StaleReview, SettleExpired;
  }

  // The task has ended and its review is over, but an attempt of it still waits for the review.
  predicate WaitsForNothing(d: Db, t: TaskId) {
    && t in d.tasks && HasEnded(d.tasks[t].status)
    && (forall p | p in d.plans && d.plans[p].task == t ::
          !d.plans[p].status.PlanPending? && !d.plans[p].status.PlanApproved? && !d.plans[p].status.PlanApplying?)
    && exists x :: x in d.execs && d.execs[x].task == t && d.execs[x].status.ExecAwaiting?
  }

  lemma StaleExactly(d: Db, t: TaskId)
    ensures WaitsForNothing(d, t) <==> StaleReview(d, t)
  {
  }

  // Settling a task that waits for nothing ends its wait and no other.
  lemma SettleEndsWait(d: Db, u: TaskId, t: TaskId)
    requires Inv(d) && WaitsForNothing(d, u)
    ensures WaitsForNothing(Settle(d, u), t) <==> WaitsForNothing(d, t) && t != u
  {
    assert ClaimRow(d, u);
    assert ReviewIsOver(d, u);
    SettleExactly(d, u);
    assert forall x | x in d.execs :: d.execs[x].task in d.tasks by {
      forall x | x in d.execs ensures d.execs[x].task in d.tasks { assert ExecRow(d, x); }
    }
    hide Settle, Inv, Unresolved, ReviewIsOver;
    TouchesOnly(d, Settle(d, u), u);
    hide EndsReview, StopsAlong, HasEnded;
  }

  // Only rows of `u` differ, and none of its attempts waits.
  ghost predicate DiffersAt(d: Db, e: Db, u: TaskId) {
    && e.plans == d.plans && e.tasks.Keys == d.tasks.Keys && e.execs.Keys == d.execs.Keys
    && (forall t | t in d.tasks && t != u :: e.tasks[t] == d.tasks[t])
    && (forall x | x in d.execs :: e.execs[x].task == d.execs[x].task && (if d.execs[x].task == u then !e.execs[x].status.ExecAwaiting? else e.execs[x] == d.execs[x]))
  }

  lemma TouchesOnly(d: Db, e: Db, u: TaskId)
    requires u in d.tasks && HasEnded(d.tasks[u].status) && EndsReview(d, e, u) && StopsAlong(d, e, u) && e.plans == d.plans
    requires forall x | x in d.execs :: d.execs[x].task in d.tasks
    ensures DiffersAt(d, e, u)
  {
    hide Unresolved;
  }

  lemma WaitingHasEnded(d: Db, u: TaskId)
    ensures WaitsForNothing(d, u) ==> u in d.tasks && TerminalTask(d.tasks[u].status)
  {
  }

  lemma {:induction false} PassLeavesNone(d: Db, ts: seq<TaskId>, t: TaskId)
    requires Inv(d)
    requires forall i, j :: 0 <= i < j < |ts| ==> ts[i] != ts[j]
    requires forall u | u in ts :: WaitsForNothing(d, u)
    ensures WaitsForNothing(SettleAll(d, ts), t) <==> WaitsForNothing(d, t) && t !in ts
    decreases |ts|
  {
    if ts != [] { WaitingHasEnded(d, ts[0]); }
    hide Settle, Inv, WaitsForNothing;
    if ts != [] {
      var d1 := Settle(d, ts[0]);
      SettleKeeps(d, ts[0]);
      SettleEndsWait(d, ts[0], t);
      forall u | u in ts[1..] ensures WaitsForNothing(d1, u) {
        var i :| 0 <= i < |ts| - 1 && ts[1..][i] == u;
        assert u == ts[i + 1] && u != ts[0];
        SettleEndsWait(d, ts[0], u);
      }
      PassLeavesNone(d1, ts[1..], t);
      assert t in ts <==> t == ts[0] || t in ts[1..];
    }
  }

  // After a full pass no task waits for nothing.
  lemma PassEndsReviews(d: Db, ps: seq<PlanId>, ts: seq<TaskId>, t: TaskId)
    requires Inv(d) && FullPass(d, ps, ts)
    ensures !WaitsForNothing(SettleExpired(d, ps, ts), t)
  {
    var c := ExpirePlans(d, ps);
    FullPassExactly(d, ps, ts);
    ExpirePlansKeep(d, ps);
    forall u ensures WaitsForNothing(c, u) <==> u in ts { StaleExactly(c, u); }
    hide ExpirePlans, SettleAll, StaleReview, SettleExpired, WaitsForNothing, Inv;
    PassLeavesNone(c, ts, t);
  }

  // ---------- the requests that a pass closes ----------

  // The task is held or has ended.
  predicate IsClosed(d: Db, t: TaskId) { t in d.tasks && (d.tasks[t].status.Blocked? || HasEnded(d.tasks[t].status)) }

  lemma SettleCloses(d: Db, u: TaskId, t: TaskId)
    requires Inv(d) && t in d.tasks
    ensures IsClosed(d, t) || (u == t && ReviewIsOver(d, t)) ==> IsClosed(Settle(d, u), t)
  {
    SettleExactly(d, u);
    hide Settle, Inv, Unresolved, ReviewIsOver;
  }

  // `p` is the last plan of the task under review that the pass has not expired yet.
  lemma LastCloses(d: Db, p: PlanId, t: TaskId)
    requires Inv(d) && p in d.plans && OpenPlan(d.plans[p].status) && d.plans[p].task == t && t in d.tasks && !LiveClaim(d, t)
    requires forall q | q in d.plans && d.plans[q].task == t && q != p :: !OpenPlan(d.plans[q].status) && !d.plans[q].status.PlanApplying?
    ensures IsClosed(ExpirePlan(d, p), t)
  {
    var c := SetPlan(d, p, PlanExpired);
    SetPlanKeeps(d, p, PlanExpired);
    assert ReviewIsOver(c, t);
    hide Settle, Inv, ReviewIsOver;
    SettleCloses(c, t, t);
  }

  lemma ExpireKeepsClosed(d: Db, p: PlanId, t: TaskId)
    requires Inv(d) && IsClosed(d, t)
    ensures Inv(ExpirePlan(d, p)) && IsClosed(ExpirePlan(d, p), t)
  {
    if p in d.plans && OpenPlan(d.plans[p].status) {
      DecideKeeps(d, p, PlanExpired);
      SetPlanKeeps(d, p, PlanExpired);
      hide Settle, Inv;
      SettleCloses(SetPlan(d, p, PlanExpired), d.plans[p].task, t);
    }
  }

  lemma {:induction false} ClosedStays(d: Db, ps: seq<PlanId>, t: TaskId)
    requires Inv(d) && IsClosed(d, t)
    ensures IsClosed(ExpirePlans(d, ps), t)
    decreases |ps|
  {
    hide ExpirePlan, Inv, IsClosed;
    if ps != [] {
      ExpireKeepsClosed(d, ps[0], t);
      ClosedStays(ExpirePlan(d, ps[0]), ps[1..], t);
    }
  }

  // Some plan of `t` is under review and in `ps`, and so is every one that is not finished.
  predicate AllListed(d: Db, ps: seq<PlanId>, t: TaskId) {
    && t in d.tasks && !LiveClaim(d, t)
    && (exists p | p in ps :: p in d.plans && d.plans[p].task == t && OpenPlan(d.plans[p].status))
    && forall p | p in d.plans && d.plans[p].task == t :: !d.plans[p].status.PlanApplying? && (OpenPlan(d.plans[p].status) ==> p in ps)
  }

  lemma {:induction false} ListedAreClosed(d: Db, ps: seq<PlanId>, t: TaskId)
    requires Inv(d) && AllListed(d, ps, t)
    ensures IsClosed(ExpirePlans(d, ps), t)
    decreases |ps|
  {
    hide Settle, Inv, LiveClaim;
    var d1 := ExpirePlan(d, ps[0]);
    ExpirePlanRows(d, ps[0]);
    if p :| p in ps[1..] && p in d1.plans && d1.plans[p].task == t && OpenPlan(d1.plans[p].status) {
      assert AllListed(d1, ps[1..], t);
      ListedAreClosed(d1, ps[1..], t);
    } else {
      forall q | q in d.plans && d.plans[q].task == t && q != ps[0] ensures !OpenPlan(d.plans[q].status) {
        assert d1.plans[q] == d.plans[q];
      }
      LastCloses(d, ps[0], t);
      ClosedStays(d1, ps[1..], t);
    }
  }

  lemma ExpirePlanRows(d: Db, p: PlanId)
    requires Inv(d)
    ensures var e := ExpirePlan(d, p);
      && Inv(e) && e.tasks.Keys == d.tasks.Keys && (forall t :: LiveClaim(e, t) <==> LiveClaim(d, t))
      && e.plans == if p in d.plans && OpenPlan(d.plans[p].status) then d.plans[p := d.plans[p].(status := PlanExpired)] else d.plans
  {
    hide Settle;
    if p in d.plans && OpenPlan(d.plans[p].status) {
      DecideKeeps(d, p, PlanExpired);
      SettleFrame(SetPlan(d, p, PlanExpired), d.plans[p].task);
      SettleSameTasks(SetPlan(d, p, PlanExpired), d.plans[p].task);
      hide Inv;
    }
  }

  // A full pass closes every request without an attempt at work whose last plans under review
  // are due.
  lemma PassCloses(d: Db, ps: seq<PlanId>, ts: seq<TaskId>, t: TaskId)
    requires Inv(d) && FullPass(d, ps, ts) && t in d.tasks && !LiveClaim(d, t)
    requires exists p :: IsDue(d, p) && d.plans[p].task == t
    requires forall p | p in d.plans && d.plans[p].task == t ::
      IsDue(d, p) || (!d.plans[p].status.PlanPending? && !d.plans[p].status.PlanApproved? && !d.plans[p].status.PlanApplying?)
    ensures IsClosed(SettleExpired(d, ps, ts), t)
  {
    FullPassExactly(d, ps, ts);
    assert AllListed(d, ps, t);
    ListedAreClosed(d, ps, t);
    var c := ExpirePlans(d, ps);
    forall i | 0 <= i < |ts| ensures ts[i] in c.tasks && TerminalTask(c.tasks[ts[i]].status) {
      assert ts[i] in ts;
      StaleExactly(c, ts[i]);
    }
    StaleMoves(c, ts, t);
    hide ExpirePlans, SettleAll, StaleReview, SettleExpired, Inv;
  }

  // ---------- resolution ----------

  // No apply of the workspace runs, no attempt of the request or of a child is at work, and the
  // plan is held or applied without its request being complete.
  predicate MayResolve(d: Db, p: PlanId, owner: Owner) {
    && p in d.plans && d.plans[p].owner == owner && d.plans[p].workspace !in d.locks && d.plans[p].task in d.tasks
    && (forall t | t in d.tasks && (t == d.plans[p].task || d.tasks[t].parent == Some(d.plans[p].task)) ::
          t in d.claims ==> d.claims[t].released || d.claims[t].expires <= d.clock)
    && (|| d.plans[p].status.PlanApplying? || d.plans[p].status.PlanUncertain?
        || (d.plans[p].status.PlanApplied? && !d.tasks[d.plans[p].task].status.Completed?))
  }

  // The lost attempts that the owner acknowledges: the request's current one, if it was at work
  // when the plan was proposed, and those of the plan's apply.
  predicate IsAcknowledged(d: Db, p: PlanId, x: ExecId)
    requires p in d.plans && d.plans[p].task in d.tasks
  {
    && x in d.execs && d.execs[x].status.ExecLost?
    && (|| (&& d.execs[x].task == d.plans[p].task && d.tasks[d.plans[p].task].current == Some(x)
            && d.execs[x].started <= d.plans[p].created && d.execs[x].ended.Some? && d.plans[p].created <= d.execs[x].ended.value)
        || (&& d.execs[x].task in d.tasks && d.tasks[d.execs[x].task].parent == Some(d.plans[p].task)
            && d.tasks[d.execs[x].task].kind == Apply(p)))
  }

  // The request is complete if its files are and nothing of it is uncertain any more; the plan's
  // failed or held apply ends as the files do, or stays held.
  ghost predicate JudgedAs(d: Db, e: Db, p: PlanId, complete: bool, t: TaskId)
    requires p in d.plans && t in d.tasks && t in e.tasks
  {
    if t == d.plans[p].task then
      e.tasks[t] == d.tasks[t].(status := if complete && !Unresolved(e, t, true) then Completed else Blocked, eligible := false)
    else if d.tasks[t].kind == Apply(p) && (d.tasks[t].status.Blocked? || d.tasks[t].status.Failed?) then
      e.tasks[t] == d.tasks[t].(status := if Unresolved(e, t, true) then Blocked else if complete then Completed else Cancelled)
    else e.tasks[t] == d.tasks[t]
  }

  // A resolution records what the owner found: the plan's end, the acknowledged attempts, and the
  // verdict on the tasks in the light of the evidence afterwards.
  lemma ResolveExactly(d: Db, p: PlanId, owner: Owner, complete: bool)
    ensures var e := ResolvePlan(d, p, owner, complete);
      if MayResolve(d, p, owner) then
        && e == d.(tasks := e.tasks, plans := e.plans, resolutions := e.resolutions)
        && e.plans == d.plans[p := d.plans[p].(status := if complete then PlanApplied else PlanReconciled)]
        && (exists xs: set<ExecId> ::
              && e.resolutions == d.resolutions + {Resolution(d.plans[p].task, p, xs)}
              && forall x :: x in xs <==> IsAcknowledged(d, p, x))
        && e.tasks.Keys == d.tasks.Keys && forall t | t in d.tasks :: JudgedAs(d, e, p, complete, t)
      else e == d
  {
    assert CanResolve(d, p, owner) <==> MayResolve(d, p, owner) by { ResolvableExactly(d, p, owner); }
    hide MayResolve, CanResolve;
    if CanResolve(d, p, owner) {
      ResolvableIsKnown(d, p, owner);
      JudgesExactly(d, p, complete);
      forall x ensures x in ResolvedExecs(d, p) <==> IsAcknowledged(d, p, x) {}
      hide ResolvedExecs, IsAcknowledged, JudgedAs, PassVerdict;
    }
  }

  lemma ResolvableExactly(d: Db, p: PlanId, owner: Owner)
    ensures CanResolve(d, p, owner) <==> MayResolve(d, p, owner)
  {
    if MayResolve(d, p, owner) && !CanResolve(d, p, owner) {
      var t :| t in d.claims && LiveClaim(d, t) && t in d.tasks && (t == d.plans[p].task || d.tasks[t].parent == Some(d.plans[p].task));
      assert false;
    }
  }

  lemma ResolvableIsKnown(d: Db, p: PlanId, owner: Owner)
    requires CanResolve(d, p, owner)
    ensures p in d.plans && d.plans[p].task in d.tasks
  {
  }

  lemma JudgesExactly(d: Db, p: PlanId, complete: bool)
    requires p in d.plans && d.plans[p].task in d.tasks
    ensures var e := PassVerdict(RecordResolution(d, p, complete), p, complete);
      e.tasks.Keys == d.tasks.Keys && forall t | t in d.tasks :: JudgedAs(d, e, p, complete, t)
    ensures var e := PassVerdict(RecordResolution(d, p, complete), p, complete); e == RecordResolution(d, p, complete).(tasks := e.tasks)
  {
    var c := RecordResolution(d, p, complete);
    var e := PassVerdict(c, p, complete);
    assert c.tasks == d.tasks && c.plans[p].task == d.plans[p].task;
    VerdictSameEvidence(c, p, complete);
    hide RecordResolution, SameEvidence, JudgedAs;
    forall t | t in d.tasks ensures t in e.tasks && JudgedAs(d, e, p, complete, t) { JudgesOne(d, c, e, p, complete, t); }
    hide Unresolved;
  }

  lemma JudgesOne(d: Db, c: Db, e: Db, p: PlanId, complete: bool, t: TaskId)
    requires p in d.plans && p in c.plans && c.tasks == d.tasks && c.plans[p].task == d.plans[p].task && t in d.tasks
    requires SameEvidence(c, e) && t in e.tasks && e.tasks[t] == Verdict(c, p, t, complete)
    ensures JudgedAs(d, e, p, complete, t)
  {
    SameEvidenceSameEffects(c, e, t);
    hide SameEvidence, Unresolved;
  }

  lemma VerdictSameEvidence(c: Db, p: PlanId, complete: bool)
    requires p in c.plans
    ensures SameEvidence(c, PassVerdict(c, p, complete))
  {
    hide Unresolved;
  }
}
