// Exactly which cancellations and recoveries stop the apply of a plan for good.
module Stops {
  import opened Options
  import opened FilePlans
  import opened LedgerTypes
  import opened Transactions
  import opened LedgerInvariants
  import opened LedgerProofs
  import opened CalmProofs
  import opened Protocol
  import opened Paths
  import opened Frames
  import opened Safety
  import opened Survival
  import opened Reach

  // ---------- cancellation ----------

  lemma HaltedNeverTouchable(d: Db, p: PlanId)
    requires Inv(d) && Halted(d, p)
    ensures !CanTouch(d, p)
  {
    hide Inv, Halted, Touches, Leads;
    forall f, s | Leads(d, f) ensures !Touches(f, s, p) {
      LeadsKeeps(d, f);
      HaltedStays(d, f, p);
      HaltedNeverTouches(f, s, p);
    }
  }

  // Cancelling the request of a plan, or its apply task, leaves the plan's files changeable if
  // and only if the cancellation returns early and the plan was alive before the call.
  lemma CancelStopsExactly(d: Db, t: TaskId, owner: Owner, selected: bool, p: PlanId)
    requires Inv(d) && p in d.plans && t in d.tasks && (t == d.plans[p].task || d.tasks[t].kind == Apply(p))
    ensures CanTouch(CancelTask(d, t, owner, selected), p) <==> !CancelActs(d, t, owner, selected) && Alive(d, p)
  {
    hide Inv, Halted, Alive, CanTouch, CancelActs;
    if CancelActs(d, t, owner, selected) {
      CancelHalts(d, t, owner, selected, p);
      CancelStaysValid(d, t, owner, selected);
      hide CancelTask;
      HaltedNeverTouchable(CancelTask(d, t, owner, selected), p);
    } else {
      TouchableExactly(d, p);
    }
  }

  lemma CancelStaysValid(d: Db, t: TaskId, owner: Owner, selected: bool)
    requires Inv(d)
    ensures Inv(CancelTask(d, t, owner, selected))
  {
    StepKeeps(d, CancelStep(t, owner, selected));
  }

  // ---------- recovery ----------

  ghost predicate ApplyUntouched(d: Db, p: PlanId) {
    forall a | a in d.tasks && d.tasks[a].kind == Apply(p) :: !Interrupted(d, a)
  }

  // Recovery interrupts neither the plan's apply nor that of a sibling with unsettled effects,
  // and interrupts the request only where it may be requeued while the plan waits unclaimed.
  ghost predicate Spared(d: Db, p: PlanId)
    requires p in d.plans
  {
    var t := d.plans[p].task;
    && ApplyUntouched(d, p)
    && (t in d.tasks && Interrupted(d, t) ==>
          OpenPlan(d.plans[p].status) && Requeueable(d, t) && forall a | a in d.tasks && d.tasks[a].kind == Apply(p) :: !d.tasks[a].status.Running?)
    && (forall q | q in d.plans && d.plans[q].task == t && HeldPlan(d.plans[q].status) :: ApplyUntouched(d, q))
  }

  // Whatever recovery does not interrupt, it leaves as it was.
  lemma StartedIsSpared(d: Db, q: PlanId, a: TaskId)
    requires Inv(d) && Started(Recover(d), q, a)
    ensures ApplyUntouched(d, q)
  {
    forall b | b in d.tasks && d.tasks[b].kind == Apply(q) ensures !Interrupted(d, b) {
      RecoverRows(d, a);
      RecoverRows(d, b);
      assert ApartTasks(d, a, b);
    }
  }

  lemma AppliesIsSpared(d: Db, q: PlanId)
    requires Inv(d) && Applies(Recover(d), q)
    ensures ApplyUntouched(d, q) && q in d.plans && d.plans[q].task in d.tasks && !Interrupted(d, d.plans[q].task)
  {
    var e := Recover(d);
    RecoverKeeps(d);
    AppliesMeans(e, q);
    RecoverFrame(d);
    RecoverRows(d, d.plans[q].task);
    StartedIsSpared(d, q, e.locks[e.plans[q].workspace].record.task);
  }

  lemma UnclaimedIsSpared(d: Db, p: PlanId)
    requires Inv(d) && p in d.plans && p in Recover(d).plans && Startable(Recover(d), p)
    ensures ApplyUntouched(d, p) && forall a | a in d.tasks && d.tasks[a].kind == Apply(p) :: d.tasks[a].status.Queued?
  {
    forall a | a in d.tasks && d.tasks[a].kind == Apply(p) ensures !Interrupted(d, a) && d.tasks[a].status.Queued? { RecoverRows(d, a); }
  }

  lemma WaitsIsSpared(d: Db, p: PlanId)
    requires Inv(d) && Waits(Recover(d), p)
    ensures p in d.plans && Spared(d, p)
  {
    var e := Recover(d);
    RecoverFrame(d);
    var t := d.plans[p].task;
    RecoverRows(d, t);
    if a :| StartedReady(e, p, a) { StartedIsSpared(d, p, a); }
    if Startable(e, p) { UnclaimedIsSpared(d, p); }
    hide Inv, ApplyUntouched, Interrupted, Recover, Leaked;
    if t in d.tasks && Requeueable(e, t) { RequeueBack(d, RecoverStep, t); }
    hide Requeueable;
    forall q | q in d.plans && d.plans[q].task == t && HeldPlan(d.plans[q].status) ensures ApplyUntouched(d, q) { AppliesIsSpared(d, q); }
  }

  lemma AppliesThrough(d: Db, q: PlanId)
    requires Inv(d) && Applies(d, q) && ApplyUntouched(d, q) && !Interrupted(d, d.plans[q].task)
    ensures Applies(Recover(d), q)
  {
    var e, h := Recover(d), d.locks[d.plans[q].workspace];
    AppliesMeans(d, q);
    RecoverKeeps(d);
    RecoverFrame(d);
    RecoverRows(d, d.plans[q].task);
    RecoverRows(d, h.record.task);
    hide Recover, Interrupted;
    AppliesFrom(e, q, h);
  }

  lemma ParentThrough(d: Db, p: PlanId)
    requires Inv(d) && p in d.plans && OpenPlan(d.plans[p].status) && Spared(d, p) && ParentReady(d, d.plans[p].task)
    ensures ParentReady(Recover(d), d.plans[p].task)
  {
    var e, t := Recover(d), d.plans[p].task;
    RecoverSpares(d);
    RecoverFrame(d);
    RecoverRows(d, t);
    hide Inv, Recover, Leaked, Spares, Interrupted, ApplyUntouched;
    if Requeueable(d, t) { RequeueOn(d, e, t); }
    hide Requeueable;
  }

  lemma WaitsThroughRecovery(d: Db, p: PlanId)
    requires Inv(d) && Waits(d, p) && Spared(d, p)
    ensures Waits(Recover(d), p)
  {
    var e, t := Recover(d), d.plans[p].task;
    assert PlanRow(d, p);
    RecoverSpares(d);
    RecoverFrame(d);
    RecoverRows(d, t);
    forall q | q in e.plans && e.plans[q].task == t && HeldPlan(e.plans[q].status) ensures Applies(e, q) { AppliesThrough(d, q); }
    forall a | a in d.tasks && d.tasks[a].kind == Apply(p) ensures e.tasks[a] == d.tasks[a] && (a in d.claims ==> a in e.claims && e.claims[a] == d.claims[a]) {
      RecoverRows(d, a);
    }
    if ParentReady(d, t) { ParentThrough(d, p); }
    hide Inv, Recover, Leaked, Spares, ParentReady, SiblingsFinish, Startable, ApplyUntouched, Interrupted, Requeueable;
    assert forall a | StartedReady(d, p, a) :: StartedReady(e, p, a);
    hide StartedReady;
    WaitsThrough(d, e, p);
  }

  lemma AliveIsSpared(d: Db, p: PlanId)
    requires Inv(d) && p in d.plans && Alive(Recover(d), p)
    ensures Alive(d, p) && Spared(d, p)
  {
    StepBackAlive(d, p);
    hide Inv, Recover, Applies, Waits, Spared;
    if Waits(Recover(d), p) { WaitsIsSpared(d, p); } else { ApplyingIsSpared(d, p); }
  }

  lemma SparedIsAlive(d: Db, p: PlanId)
    requires Inv(d) && p in d.plans && Alive(d, p) && Spared(d, p)
    ensures Alive(Recover(d), p)
  {
    if Waits(d, p) {
      WaitsThroughRecovery(d, p);
    } else {
      AppliesMeans(d, p);
      hide Recover, Inv;
      AppliesThrough(d, p);
    }
  }

  // A recovery leaves the plan's files changeable if and only if the plan was alive and spared
  // before the call. In particular the recovery of a request stops only the plans that have
  // begun and those it can no longer be requeued for.
  lemma RecoverStopsExactly(d: Db, p: PlanId)
    requires Inv(d) && p in d.plans
    ensures CanTouch(Recover(d), p) <==> Alive(d, p) && Spared(d, p)
  {
    RecoverKeeps(d);
    RecoverFrame(d);
    hide Inv, Recover, Alive, Spared, CanTouch;
    TouchableExactly(Recover(d), p);
    if Alive(Recover(d), p) { AliveIsSpared(d, p); }
    if Alive(d, p) && Spared(d, p) { SparedIsAlive(d, p); }
  }

  lemma StepBackAlive(d: Db, p: PlanId)
    requires Inv(d) && p in d.plans && Alive(Recover(d), p)
    ensures Alive(d, p)
  {
    hide Alive, Inv, Recover;
    AliveBack(d, RecoverStep, p);
  }

  lemma ApplyingIsSpared(d: Db, p: PlanId)
    requires Inv(d) && p in d.plans && Applies(Recover(d), p)
    ensures Spared(d, p)
  {
    RecoverKeeps(d);
    RecoverFrame(d);
    AppliesIsSpared(d, p);
    AppliesMeans(Recover(d), p);
    hide Recover;
    forall q | q in d.plans && d.plans[q].task == d.plans[p].task && HeldPlan(d.plans[q].status) ensures q == p {
      assert PlanRow(d, p) && PlanRow(d, q) && ApartPlans(d, p, q);
    }
  }

  // ---------- over runs ----------

  // The step cancels the request or the apply of the plan, or recovers.
  ghost predicate Concerns(d: Db, s: Step, p: PlanId) {
    && p in d.plans
    && (s.RecoverStep? || (s.CancelStep? && s.t in d.tasks && (s.t == d.plans[p].task || d.tasks[s.t].kind == Apply(p))))
  }

  // What stops the plan, read off the ledger before the step.
  ghost predicate StopsPlan(d: Db, s: Step, p: PlanId) {
    && Concerns(d, s, p)
    && if s.RecoverStep? then !(Alive(d, p) && Spared(d, p)) else CancelActs(d, s.t, s.owner, s.selected) || !Alive(d, p)
  }

  // In any run, a cancellation or a recovery stops the plan if and only if no transactions
  // after it lead to a mutation of the plan's files.
  lemma StopsExactly(states: seq<Db>, steps: seq<Step>, i: nat, p: PlanId)
    requires Run(states, steps) && i < |steps| && Concerns(states[i], steps[i], p)
    ensures StopsPlan(states[i], steps[i], p) <==> !CanTouch(states[i + 1], p)
  {
    hide Next, Inv, Alive, Spared, CanTouch, CancelActs;
    Reachable(states, steps, i);
    assert Follows(states, steps, i);
    match steps[i] {
      case CancelStep(t, owner, selected) =>
        CancelStopsExactly(states[i], t, owner, selected, p);
        StepIsCancel(states[i], t, owner, selected);
      case RecoverStep =>
        RecoverStopsExactly(states[i], p);
        StepIsRecover(states[i]);
    }
  }

  // Once a cancellation or a recovery has stopped a plan, no later step of the run is one of
  // its file mutations.
  lemma StopIsFinal(states: seq<Db>, steps: seq<Step>, i: nat, j: nat, p: PlanId)
    requires Run(states, steps) && i < j < |steps| && StopsPlan(states[i], steps[i], p)
    ensures !Touches(states[j], steps[j], p)
  {
    StopsExactly(states, steps, i, p);
    RunLeads(states, steps, i + 1, j);
    TouchedIsTouchable(states[i + 1], states[j], steps[j], p);
  }

  lemma StepIsCancel(d: Db, t: TaskId, owner: Owner, selected: bool)
    ensures Next(d, CancelStep(t, owner, selected)) == CancelTask(d, t, owner, selected)
  {
  }

  lemma StepIsRecover(d: Db)
    ensures Next(d, RecoverStep) == Recover(d)
  {
  }

  lemma TouchedIsTouchable(d: Db, f: Db, s: Step, p: PlanId)
    requires Leads(d, f)
    ensures Touches(f, s, p) ==> CanTouch(d, p)
  {
    hide Touches, Leads;
  }

  lemma {:induction false} RunLeads(states: seq<Db>, steps: seq<Step>, i: nat, j: nat)
    requires Run(states, steps) && i <= j < |states|
    ensures Leads(states[i], states[j])
    decreases j
  {
    hide Next, Leads;
    if i == j {
      LeadsSelf(states[i]);
    } else {
      RunLeads(states, steps, i, j - 1);
      assert Follows(states, steps, j - 1);
      LeadsNext(states[i], states[j - 1], steps[j - 1], states[j]);
    }
  }
}
