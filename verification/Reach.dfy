// From every ledger in which a plan is alive some transactions lead to a mutation of its files.
module Reach {
  import opened Options
  import opened FilePlans
  import opened LedgerTypes
  import opened Transactions
  import opened LedgerInvariants
  import opened LedgerProofs
  import opened CalmProofs
  import opened StepProofs
  import opened CreateProofs
  import opened Protocol
  import opened Paths
  import opened Frames
  import opened Safety
  import opened Causes
  import opened Survival
  import opened ClosingCauses
  import opened Leaks

  // Some sequence of transactions leads to a file mutation by the apply of plan `p`.
  ghost predicate CanTouch(d: Db, p: PlanId) { exists f, s :: Leads(d, f) && Touches(f, s, p) }

  lemma StepTo(d: Db, s: Step, p: PlanId)
    requires CanTouch(Next(d, s), p)
    ensures CanTouch(d, p)
  {
    hide Next, Touches, Leads;
    var f, u :| Leads(Next(d, s), f) && Touches(f, u, p);
    LeadsAfter(d, s, f);
  }

  // ---------- fresh names ----------

  lemma {:induction false} FreshName(s: set<nat>) returns (x: nat)
    ensures forall y | y in s :: y < x
    decreases |s|
  {
    if s == {} {
      x := 0;
    } else {
      var y :| y in s;
      var z := FreshName(s - {y});
      x := if y < z then z else y + 1;
      assert forall v | v in s && v != y :: v in s - {y};
    }
  }

  lemma {:induction false} LowestPriority(d: Db, s: set<TaskId>) returns (n: int)
    requires s <= d.tasks.Keys
    ensures forall u | u in s :: n < d.tasks[u].priority
    decreases |s|
  {
    if s == {} {
      n := 0;
    } else {
      var y :| y in s;
      var m := LowestPriority(d, s - {y});
      n := if m < d.tasks[y].priority then m else d.tasks[y].priority - 1;
      assert forall v | v in s && v != y :: v in s - {y};
    }
  }

  // ---------- from the guard back to the claim ----------

  lemma ApplyingTouches(d: Db, p: PlanId)
    requires Inv(d) && Applies(d, p)
    ensures CanTouch(d, p)
  {
    var ws := d.plans[p].workspace;
    var w := d.locks[ws].record.worker;
    var e := Heartbeat(d, w, false);
    AppliesMeans(d, p);
    assert e.locks == d.locks;
    assert Touches(e, TouchStep(ws, true), p);
    LeadsSelf(e);
    assert Next(d, HeartbeatStep(w, false)) == e;
    hide Next, Touches;
    StepTo(d, HeartbeatStep(w, false), p);
  }

  // The plan is under review or approved, its request accepts changes, and nothing else is
  // applying or has unsettled effects in its workspace.
  ghost predicate Clear(d: Db, p: PlanId) {
    && p in d.plans && OpenPlan(d.plans[p].status) && d.plans[p].expires > d.clock
    && d.plans[p].task in d.tasks && Receptive(d.tasks[d.plans[p].task].status)
    && d.plans[p].workspace !in d.locks
    && (forall q | q in d.plans && d.plans[q].workspace == d.plans[p].workspace :: !HeldPlan(d.plans[q].status))
  }

  lemma BeginEffect(d: Db, p: PlanId, a: TaskId)
    requires Inv(d) && Clear(d, p) && d.plans[p].status.PlanApproved? && Started(d, p, a)
    requires var w := d.tasks[a].worker; w in d.workers && d.workers[w] == Worker(d.clock, false)
    ensures var r := Record(a, d.claims[a].exec, d.tasks[a].worker);
      && CanBegin(d, r, p, d.plans[p].owner, true, true)
      && Applies(BeginApply(d, r, p, d.plans[p].owner, true, true), p)
  {
    assert TaskRow(d, a) && ClaimRow(d, a) && PlanRow(d, p);
  }

  lemma HeartbeatTo(d: Db, w: WorkerId, p: PlanId)
    requires CanTouch(Heartbeat(d, w, false), p)
    ensures CanTouch(d, p)
  {
    hide Heartbeat, CanTouch;
    StepTo(d, HeartbeatStep(w, false), p);
  }

  lemma BeginTouches(d: Db, p: PlanId, a: TaskId)
    requires Inv(d) && Clear(d, p) && d.plans[p].status.PlanApproved? && Started(d, p, a)
    requires var w := d.tasks[a].worker; w in d.workers && d.workers[w] == Worker(d.clock, false)
    ensures CanTouch(d, p)
  {
    var begin := BeginStep(Record(a, d.claims[a].exec, d.tasks[a].worker), p, d.plans[p].owner, true, true);
    BeginEffect(d, p, a);
    hide BeginApply, CanBegin, Applies, Clear, Started, CanTouch;
    StepKeeps(d, begin);
    ApplyingTouches(Next(d, begin), p);
    StepTo(d, begin, p);
  }

  lemma StartedTouches(d: Db, p: PlanId, a: TaskId)
    requires Inv(d) && Clear(d, p) && d.plans[p].status.PlanApproved? && Started(d, p, a)
    ensures CanTouch(d, p)
  {
    var w := d.tasks[a].worker;
    assert TaskRow(d, a);
    HeartbeatKeeps(d, w, false);
    var e := Heartbeat(d, w, false);
    assert e == d.(workers := d.workers[w := Worker(d.clock, false)]);
    hide Inv, CanTouch, Heartbeat;
    BeginTouches(e, p, a);
    HeartbeatTo(d, w, p);
  }

  // ---------- from the claim back to the admission ----------

  // No operation of the workspace holds a claim.
  ghost predicate Unclaimed(d: Db, ws: Workspace) {
    forall u | u in d.tasks && OpenClaim(d, u) :: d.tasks[u].workspace != ws
  }

  lemma AssessEffect(d: Db, p: PlanId, a: TaskId, n: int)
    requires Inv(d) && a in d.tasks && d.tasks[a].kind == Apply(p) && d.tasks[a].status.Queued?
    requires p in d.plans && Unclaimed(d, d.plans[p].workspace) && forall u | u in d.tasks :: n < d.tasks[u].priority
    ensures var e := Assess(d, a, n);
      Inv(e) && (Clear(d, p) ==> Clear(e, p)) && ClaimAnswers(e, d.tasks[a].worker, |OpenClaims(e)| + 1, Some(a))
      && e == d.(tasks := d.tasks[a := d.tasks[a].(priority := n)])
  {
    AssessKeeps(d, a, n);
    var e := Assess(d, a, n);
    assert TaskRow(d, a) && PlanRow(d, p) && TurnRow(d, a);
    assert e == d.(tasks := d.tasks[a := d.tasks[a].(priority := n)]);
    hide Inv;
    assert Claimable(e, a, d.tasks[a].worker);
  }

  lemma ClaimEffect(d: Db, p: PlanId, a: TaskId, w: WorkerId, slots: int, x: ExecId)
    requires Inv(d) && a in d.tasks && d.tasks[a].kind == Apply(p) && d.tasks[a].status.Queued?
    requires ClaimAnswers(d, w, slots, Some(a)) && x !in d.execs && |OpenClaims(d)| < slots
    ensures var e := ClaimNext(d, w, slots, a, x); Inv(e) && Started(e, p, a) && (Clear(d, p) ==> Clear(e, p)) && e.plans == d.plans
  {
    ClaimNextKeeps(d, w, slots, a, x);
    assert ClaimRow(d, a) && PlanRow(d, p);
    assert ClaimNext(d, w, slots, a, x) == StartAttempt(d, a, x, w);
    hide Inv, ClaimNext, ClaimAnswers;
  }

  lemma ClaimTo(d: Db, w: WorkerId, slots: int, a: TaskId, x: ExecId, p: PlanId)
    requires CanTouch(ClaimNext(d, w, slots, a, x), p)
    ensures CanTouch(d, p)
  {
    hide ClaimNext, CanTouch;
    StepTo(d, ClaimStep(w, slots, a, x), p);
  }

  lemma AssessTo(d: Db, a: TaskId, n: int, p: PlanId)
    requires CanTouch(Assess(d, a, n), p)
    ensures CanTouch(d, p)
  {
    hide Assess, CanTouch;
    StepTo(d, AssessStep(a, n), p);
  }

  lemma FirstTouches(d: Db, p: PlanId, a: TaskId, w: WorkerId, slots: int)
    requires Inv(d) && Clear(d, p) && d.plans[p].status.PlanApproved? && |OpenClaims(d)| < slots
    requires a in d.tasks && d.tasks[a].kind == Apply(p) && d.tasks[a].status.Queued? && ClaimAnswers(d, w, slots, Some(a))
    ensures CanTouch(d, p)
  {
    var x := FreshName(d.execs.Keys);
    ClaimEffect(d, p, a, w, slots, x);
    hide ClaimNext, Inv, Started, CanTouch, ClaimAnswers, OpenClaims;
    StartedTouches(ClaimNext(d, w, slots, a, x), p, a);
    ClaimTo(d, w, slots, a, x, p);
  }

  lemma ClaimTouches(d: Db, p: PlanId, a: TaskId)
    requires Inv(d) && Clear(d, p) && d.plans[p].status.PlanApproved? && Unclaimed(d, d.plans[p].workspace)
    requires a in d.tasks && d.tasks[a].kind == Apply(p) && d.tasks[a].status.Queued?
    ensures CanTouch(d, p)
  {
    var n := LowestPriority(d, d.tasks.Keys);
    AssessEffect(d, p, a, n);
    hide Inv, Clear, CanTouch, ClaimAnswers, OpenClaims, Unclaimed, Assess;
    FirstTouches(Assess(d, a, n), p, a, d.tasks[a].worker, |OpenClaims(Assess(d, a, n))| + 1);
    AssessTo(d, a, n, p);
  }

  // ---------- from the admission back to the approval ----------

  lemma ReadyWorker(d: Db) returns (w: WorkerId)
    requires Inv(d)
    ensures w !in d.workers && var e := RegisterWorker(d, w);
      Inv(e) && e == d.(workers := d.workers[w := Worker(d.clock, false)]) && WorkerReady(e, w)
  {
    w := FreshName(d.workers.Keys);
    RegisterKeeps(d, w);
  }

  lemma RegisterTo(d: Db, w: WorkerId, p: PlanId)
    requires CanTouch(RegisterWorker(d, w), p)
    ensures CanTouch(d, p)
  {
    hide RegisterWorker, CanTouch;
    StepTo(d, RegisterStep(w), p);
  }

  lemma AdmitTo(d: Db, i: Intake, p: PlanId)
    requires CanTouch(SubmitApply(d, i, p), p)
    ensures CanTouch(d, p)
  {
    hide SubmitApply, CanTouch;
    StepTo(d, SubmitApplyStep(i, p), p);
  }

  lemma AdmitEffect(d: Db, p: PlanId, i: Intake)
    requires Inv(d) && Clear(d, p) && d.plans[p].status.PlanApproved? && Unclaimed(d, d.plans[p].workspace) && !HasApplyTask(d, p)
    requires i.task !in d.tasks && i.source.None? && WorkerReady(d, i.worker) && i.owner == d.plans[p].owner && i.workspace == d.plans[p].workspace
    ensures var e := SubmitApply(d, i, p);
      && Inv(e) && Clear(e, p) && e.plans == d.plans && Unclaimed(e, d.plans[p].workspace)
      && i.task in e.tasks && e.tasks[i.task].kind == Apply(p) && e.tasks[i.task].status.Queued?
  {
    SubmitApplyKeeps(d, i, p);
    assert ClaimRow(d, i.task);
    hide Inv, WorkerReady, HasApplyTask;
    assert SubmitApply(d, i, p) == Insert(d, i, Apply(p), Some(d.plans[p].task));
  }

  lemma AdmitTouches(d: Db, p: PlanId, w: WorkerId)
    requires Inv(d) && Clear(d, p) && d.plans[p].status.PlanApproved? && Unclaimed(d, d.plans[p].workspace)
    requires !HasApplyTask(d, p) && WorkerReady(d, w)
    ensures CanTouch(d, p)
  {
    var a := FreshName(d.tasks.Keys);
    var i := Intake(a, d.plans[p].owner, d.plans[p].workspace, w, None, None, None);
    AdmitEffect(d, p, i);
    hide SubmitApply, Inv, Clear, CanTouch, Unclaimed, WorkerReady;
    ClaimTouches(SubmitApply(d, i, p), p, a);
    AdmitTo(d, i, p);
  }

  lemma UnadmittedTouches(d: Db, p: PlanId)
    requires Inv(d) && Clear(d, p) && d.plans[p].status.PlanApproved? && Unclaimed(d, d.plans[p].workspace) && !HasApplyTask(d, p)
    ensures CanTouch(d, p)
  {
    var w := ReadyWorker(d);
    hide Inv, CanTouch, WorkerReady;
    AdmitTouches(RegisterWorker(d, w), p, w);
    RegisterTo(d, w, p);
  }

  // The apply of the plan is started, or not claimed in a workspace without claims.
  ghost predicate Near(d: Db, p: PlanId) {
    && p in d.plans
    && ((exists a :: Started(d, p, a))
        || (Unclaimed(d, d.plans[p].workspace) && forall a | a in d.tasks && d.tasks[a].kind == Apply(p) :: d.tasks[a].status.Queued?))
  }

  lemma ApprovedTouches(d: Db, p: PlanId)
    requires Inv(d) && Clear(d, p) && Near(d, p) && d.plans[p].status.PlanApproved?
    ensures CanTouch(d, p)
  {
    hide Inv, Clear, CanTouch, Unclaimed, Started;
    if a: TaskId :| Started(d, p, a) {
      StartedTouches(d, p, a);
    } else if a: TaskId :| a in d.tasks && d.tasks[a].kind == Apply(p) {
      ClaimTouches(d, p, a);
    } else {
      UnadmittedTouches(d, p);
    }
  }

  lemma ApproveTo(d: Db, p: PlanId, owner: Owner, reviewed: seq<Change>)
    requires CanTouch(ApprovePlan(d, p, owner, reviewed, true), p)
    ensures CanTouch(d, p)
  {
    hide ApprovePlan, CanTouch;
    StepTo(d, ApproveStep(p, owner, reviewed, true), p);
  }

  lemma ApproveEffect(d: Db, p: PlanId)
    requires Inv(d) && Clear(d, p) && Near(d, p)
    ensures var e := ApprovePlan(d, p, d.plans[p].owner, d.plans[p].hash, true);
      Inv(e) && Clear(e, p) && Near(e, p) && e.plans[p].status.PlanApproved?
  {
    var e := SetPlan(d, p, PlanApproved);
    ApproveKeeps(d, p, d.plans[p].owner, d.plans[p].hash, true);
    assert ApprovePlan(d, p, d.plans[p].owner, d.plans[p].hash, true) == e;
    hide Inv, ApprovePlan;
    assert Unclaimed(d, d.plans[p].workspace) ==> Unclaimed(e, d.plans[p].workspace);
    if a: TaskId :| Started(d, p, a) { assert Started(e, p, a); }
  }

  lemma ClearTouches(d: Db, p: PlanId)
    requires Inv(d) && Clear(d, p) && Near(d, p)
    ensures CanTouch(d, p)
  {
    ApproveEffect(d, p);
    hide Inv, Clear, Near, CanTouch, ApprovePlan;
    ApprovedTouches(ApprovePlan(d, p, d.plans[p].owner, d.plans[p].hash, true), p);
    ApproveTo(d, p, d.plans[p].owner, d.plans[p].hash);
  }

  // ---------- from the approval back to the resumption ----------

  // No plan has unsettled file effects, and no attempt is at work except the plan's apply.
  ghost predicate Calmed(d: Db, p: PlanId) {
    && (forall q | q in d.plans :: !HeldPlan(d.plans[q].status))
    && (forall u | u in d.tasks && OpenClaim(d, u) :: Leaked(d, u) || d.tasks[u].kind == Apply(p))
  }

  // A request whose ended attempts left no journal and no lost claim may be requeued.
  lemma NothingOpen(d: Db, p: PlanId, t: TaskId)
    requires Inv(d) && Calmed(d, p) && p in d.plans && Requeueable(d, t) && d.tasks[t].kind.Request?
    requires forall a | a in d.tasks && d.tasks[a].kind == Apply(p) :: d.tasks[a].status.Queued?
    ensures !Unresolved(d, t, false)
  {
    forall c | c in d.tasks && InFamily(d, t, c) ensures !OpenEffect(d, t, c, false) {
      forall x | x in d.execs && d.execs[x].task == c ensures !OpenAttempt(d, t, x, false) { assert ExecRow(d, x) && ClaimRow(d, c); }
      forall q | q in d.plans && d.plans[q].task == c ensures !OpenJournal(d, q) { assert PlanRow(d, q); }
    }
  }

  // The request can be requeued by `w` now.
  ghost predicate Resumable(d: Db, p: PlanId, w: WorkerId) {
    && p in d.plans && OpenPlan(d.plans[p].status) && d.plans[p].expires > d.clock && d.plans[p].workspace !in d.locks
    && Calmed(d, p) && WorkerReady(d, w) && Startable(d, p) && Requeueable(d, d.plans[p].task)
    && (d.tasks[d.plans[p].task].status.Blocked? || d.tasks[d.plans[p].task].status.Failed?)
    && !AmbiguousDelivery(d, d.plans[p].task)
  }

  lemma ResumeEffect(d: Db, p: PlanId, w: WorkerId)
    requires Inv(d) && Resumable(d, p, w)
    ensures var t := d.plans[p].task;
      var e := Resume(d, t, d.tasks[t].owner, w); Inv(e) && Clear(e, p) && Near(e, p)
  {
    var t := d.plans[p].task;
    var owner := d.tasks[t].owner;
    assert PlanRow(d, p) && ClaimRow(d, t);
    NothingOpen(d, p, t);
    ResumeKeeps(d, t, owner, w);
    var e := Resume(d, t, owner, w);
    assert CanResume(d, t, owner, w);
    assert e == d.(tasks := d.tasks[t := d.tasks[t].(status := Queued, eligible := true, worker := w)]);
    UnclaimedNow(d, p);
    hide Inv;
  }

  lemma UnclaimedNow(d: Db, p: PlanId)
    requires Inv(d) && p in d.plans && Calmed(d, p) && Startable(d, p)
    ensures Unclaimed(d, d.plans[p].workspace)
  {
    forall u | u in d.tasks && OpenClaim(d, u) ensures d.tasks[u].workspace != d.plans[p].workspace { assert ClaimRow(d, u); }
  }

  lemma ResumeTo(d: Db, t: TaskId, owner: Owner, w: WorkerId, p: PlanId)
    requires CanTouch(Resume(d, t, owner, w), p)
    ensures CanTouch(d, p)
  {
    hide Resume, CanTouch;
    StepTo(d, ResumeStep(t, owner, w), p);
  }

  lemma ResumableTouches(d: Db, p: PlanId, w: WorkerId)
    requires Inv(d) && Resumable(d, p, w)
    ensures CanTouch(d, p)
  {
    var t := d.plans[p].task;
    assert t in d.tasks;
    ResumeEffect(d, p, w);
    hide Inv, Resume, Clear, Near, CanTouch;
    ClearTouches(Resume(d, t, d.tasks[t].owner, w), p);
    ResumeTo(d, t, d.tasks[t].owner, w, p);
  }

  // The request is blocked or failed, whatever its last delivery and whoever is at work.
  ghost predicate Held(d: Db, p: PlanId) {
    && p in d.plans && OpenPlan(d.plans[p].status) && d.plans[p].expires > d.clock && d.plans[p].workspace !in d.locks
    && Calmed(d, p) && Startable(d, p) && Requeueable(d, d.plans[p].task)
    && (d.tasks[d.plans[p].task].status.Blocked? || d.tasks[d.plans[p].task].status.Failed?)
  }

  lemma HeldFrame(d: Db, e: Db, p: PlanId)
    requires Held(d, p) && e == d.(workers := e.workers, results := e.results)
    ensures Held(e, p)
  {
    assert forall u :: Leaked(e, u) <==> Leaked(d, u);
  }

  lemma RegisteredTouches(d: Db, p: PlanId)
    requires Inv(d) && Held(d, p) && !AmbiguousDelivery(d, d.plans[p].task)
    ensures CanTouch(d, p)
  {
    var w := ReadyWorker(d);
    var e := RegisterWorker(d, w);
    HeldFrame(d, e, p);
    hide Inv, CanTouch, RegisterWorker, Calmed, Startable, Requeueable, WorkerReady;
    ResumableTouches(e, p, w);
    RegisterTo(d, w, p);
  }

  lemma AcknowledgeTo(d: Db, t: TaskId, owner: Owner, p: PlanId)
    requires CanTouch(Acknowledge(d, t, owner), p)
    ensures CanTouch(d, p)
  {
    hide Acknowledge, CanTouch;
    StepTo(d, AcknowledgeStep(t, owner), p);
  }

  lemma HeldTouches(d: Db, p: PlanId)
    requires Inv(d) && Held(d, p)
    ensures CanTouch(d, p)
  {
    var t := d.plans[p].task;
    assert t in d.tasks;
    if AmbiguousDelivery(d, t) {
      var owner := d.tasks[t].owner;
      var e := Acknowledge(d, t, owner);
      AcknowledgeKeeps(d, t, owner);
      HeldFrame(d, e, p);
      assert !AmbiguousDelivery(e, t);
      hide Inv, CanTouch, Held, Acknowledge;
      RegisteredTouches(e, p);
      AcknowledgeTo(d, t, owner, p);
    } else {
      RegisteredTouches(d, p);
    }
  }

  lemma CalmedTouches(d: Db, p: PlanId)
    requires Inv(d) && Waits(d, p) && Calmed(d, p) && d.plans[p].workspace !in d.locks
    ensures CanTouch(d, p)
  {
    hide CanTouch;
    var t := d.plans[p].task;
    if a :| StartedReady(d, p, a) {
      assert Clear(d, p) && Near(d, p);
      ClearTouches(d, p);
    } else {
      assert TaskRow(d, t) && ClaimRow(d, t) && PlanRow(d, p);
      UnclaimedNow(d, p);
      if Receptive(d.tasks[t].status) { ClearTouches(d, p); } else { HeldTouches(d, p); }
    }
  }

  // ---------- what keeps a plan waiting ----------

  // Tasks keep their identity and no claim is lost.
  ghost predicate Spares(d: Db, e: Db) {
    && e.tasks.Keys == d.tasks.Keys
    && (forall u | u in d.tasks :: e.tasks[u] == d.tasks[u].(status := e.tasks[u].status, eligible := e.tasks[u].eligible))
    && (forall u | Leaked(e, u) :: Leaked(d, u))
  }

  ghost predicate Lone(d: Db, p: PlanId)
    requires p in d.plans
  {
    forall q | q in d.plans && d.plans[q].task == d.plans[p].task :: !HeldPlan(d.plans[q].status)
  }

  lemma RequeueOn(d: Db, e: Db, t: TaskId)
    requires Requeueable(d, t) && Spares(d, e)
    requires forall q | q in e.plans && e.plans[q].task == t && BegunPlan(e.plans[q].status) :: q in d.plans && d.plans[q].task == t && BegunPlan(d.plans[q].status)
    ensures Requeueable(e, t)
  {
    hide Leaked;
  }

  lemma WaitsThrough(d: Db, e: Db, p: PlanId)
    requires Waits(d, p) && Spares(d, e) && e.clock == d.clock && p in e.plans && e.plans[p] == d.plans[p] && SiblingsFinish(e, p)
    requires ParentReady(d, d.plans[p].task) ==> ParentReady(e, d.plans[p].task)
    requires forall a | a in d.tasks && d.tasks[a].kind == Apply(p) :: d.tasks[a].status.Queued? ==> e.tasks[a].status.Queued?
    requires forall a | StartedReady(d, p, a) :: StartedReady(e, p, a)
    ensures Waits(e, p)
  {
    hide Leaked, StartedReady, ParentReady, SiblingsFinish;
    if !Startable(d, p) {
      var a :| StartedReady(d, p, a);
      assert StartedReady(e, p, a);
    }
  }

  lemma WaitsOn(d: Db, e: Db, p: PlanId)
    requires Waits(d, p) && Spares(d, e) && e.clock == d.clock && p in e.plans && e.plans[p] == d.plans[p] && Lone(e, p)
    requires ParentReady(d, d.plans[p].task) ==> ParentReady(e, d.plans[p].task)
    requires forall a | a in d.tasks && d.tasks[a].kind == Apply(p) :: d.tasks[a].status.Queued? ==> e.tasks[a].status.Queued?
    requires forall a | StartedReady(d, p, a) :: StartedReady(e, p, a)
    ensures Waits(e, p)
  {
    assert SiblingsFinish(e, p);
    hide SiblingsFinish, Spares, Lone, Waits, ParentReady, StartedReady;
    WaitsThrough(d, e, p);
  }

  // ---------- from the calm back to the held plans ----------

  // No attempt is at work except the plan's apply.
  ghost predicate Quieted(d: Db, p: PlanId) {
    forall u | u in d.tasks && OpenClaim(d, u) :: Leaked(d, u) || d.tasks[u].kind == Apply(p)
  }

  ghost function HeldPlans(d: Db): set<PlanId> { set q | q in d.plans && HeldPlan(d.plans[q].status) }

  lemma ResolveTo(d: Db, q: PlanId, owner: Owner, p: PlanId)
    requires CanTouch(ResolvePlan(d, q, owner, false), p)
    ensures CanTouch(d, p)
  {
    hide ResolvePlan, CanTouch;
    StepTo(d, ResolveStep(q, owner, false), p);
  }

  lemma CanResolveNow(d: Db, p: PlanId, q: PlanId)
    requires Inv(d) && Quieted(d, p) && p in d.plans && d.locks == map[]
    requires q in d.plans && HeldPlan(d.plans[q].status) && d.plans[q].task != d.plans[p].task
    ensures CanResolve(d, q, d.plans[q].owner) && !ActiveTask(d.tasks[d.plans[q].task].status)
  {
    assert PlanRow(d, q) && TaskRow(d, d.plans[q].task);
    forall u | u in d.claims && LiveClaim(d, u) && u in d.tasks ensures u != d.plans[q].task && d.tasks[u].parent != Some(d.plans[q].task) {
      assert TaskRow(d, u);
    }
  }

  lemma ResolveRows(d: Db, p: PlanId, q: PlanId, u: TaskId)
    requires q in d.plans && CanResolve(d, q, d.plans[q].owner) && u in d.tasks
    ensures var e := ResolvePlan(d, q, d.plans[q].owner, false);
      && e.tasks.Keys == d.tasks.Keys
      && e.tasks[u] == d.tasks[u].(status := e.tasks[u].status, eligible := e.tasks[u].eligible)
      && (u != d.plans[q].task && d.tasks[u].kind != Apply(q) ==> e.tasks[u] == d.tasks[u])
  {
    hide Unresolved, LiveClaim, ResolvedExecs;
  }

  lemma ResolveSpares(d: Db, p: PlanId, q: PlanId)
    requires Inv(d) && Quieted(d, p) && p in d.plans && d.locks == map[]
    requires q in d.plans && HeldPlan(d.plans[q].status) && d.plans[q].task != d.plans[p].task
    ensures var e := ResolvePlan(d, q, d.plans[q].owner, false);
      Inv(e) && Spares(d, e) && Quieted(e, p)
  {
    var owner := d.plans[q].owner;
    var e := ResolvePlan(d, q, owner, false);
    CanResolveNow(d, p, q);
    ResolveKeeps(d, q, owner, false);
    ResolveFrame(d, q, owner, false);
    ResolveLeaksExactly(d, q, owner, false);
    forall u | u in d.tasks ensures e.tasks.Keys == d.tasks.Keys && e.tasks[u] == d.tasks[u].(status := e.tasks[u].status, eligible := e.tasks[u].eligible) {
      ResolveRows(d, p, q, u);
    }
    ResolveSameTasks(d, q, owner, false);
    hide Inv, ResolvePlan;
    forall u | Leaked(e, u) ensures Leaked(d, u) { assert !NewLeak(d, e, u); }
    forall u | Leaked(d, u) ensures Leaked(e, u) { assert LeakStays(d, e, u); }
  }

  // A resolution of another request's plan touches neither the request nor the plan's apply.
  lemma ResolveSparesOwn(d: Db, p: PlanId, q: PlanId)
    requires Inv(d) && p in d.plans && q in d.plans && CanResolve(d, q, d.plans[q].owner) && d.plans[q].task != d.plans[p].task
    ensures var t, e := d.plans[p].task, ResolvePlan(d, q, d.plans[q].owner, false);
      && t in d.tasks && t in e.tasks && e.tasks[t] == d.tasks[t]
      && (forall a | a in d.tasks && d.tasks[a].kind == Apply(p) :: a in e.tasks && e.tasks[a] == d.tasks[a])
  {
    assert PlanRow(d, p) && PlanRow(d, q);
    ResolveRows(d, p, q, d.plans[p].task);
    forall a | a in d.tasks && d.tasks[a].kind == Apply(p)
      ensures a in ResolvePlan(d, q, d.plans[q].owner, false).tasks && ResolvePlan(d, q, d.plans[q].owner, false).tasks[a] == d.tasks[a]
    {
      ResolveRows(d, p, q, a);
    }
  }

  // Another plan `q` of another request may have been settled; nothing else that matters changed.
  lemma SettledWaits(d: Db, e: Db, p: PlanId, q: PlanId)
    requires Inv(d) && Waits(d, p) && Lone(d, p) && Spares(d, e) && q in d.plans && d.plans[q].task != d.plans[p].task
    requires e == d.(tasks := e.tasks, plans := e.plans, resolutions := e.resolutions, locks := e.locks)
    requires e.plans == d.plans[q := d.plans[q].(status := PlanReconciled)]
    requires var t := d.plans[p].task; t in d.tasks && e.tasks[t] == d.tasks[t]
    requires forall a | a in d.tasks && d.tasks[a].kind == Apply(p) :: e.tasks[a] == d.tasks[a]
    ensures Waits(e, p) && Lone(e, p)
  {
    hide Inv, Leaked;
    if Requeueable(d, d.plans[p].task) { RequeueOn(d, e, d.plans[p].task); }
    hide Requeueable, Startable, Spares;
    WaitsOn(d, e, p);
  }

  lemma ResolveWaits(d: Db, p: PlanId, q: PlanId)
    requires Inv(d) && Waits(d, p) && Lone(d, p) && Quieted(d, p) && d.locks == map[]
    requires q in d.plans && HeldPlan(d.plans[q].status)
    ensures var e := ResolvePlan(d, q, d.plans[q].owner, false);
      Inv(e) && Waits(e, p) && Lone(e, p) && Quieted(e, p) && e.locks == map[] && HeldPlans(e) == HeldPlans(d) - {q}
  {
    assert q != p && d.plans[q].task != d.plans[p].task;
    hide Waits;
    CanResolveNow(d, p, q);
    ResolveSpares(d, p, q);
    ResolveSparesOwn(d, p, q);
    ResolveFrame(d, q, d.plans[q].owner, false);
    ResolvedPlans(d, q, d.plans[q].owner, false);
    hide ResolvePlan, CanResolve, Inv, Quieted, Spares, Lone;
    SettledWaits(d, ResolvePlan(d, q, d.plans[q].owner, false), p, q);
  }

  lemma {:induction false} QuietedTouches(d: Db, p: PlanId)
    requires Inv(d) && Waits(d, p) && Lone(d, p) && Quieted(d, p) && d.locks == map[]
    ensures CanTouch(d, p)
    decreases |HeldPlans(d)|
  {
    hide CanTouch, Inv, Waits, Lone, Quieted;
    if HeldPlans(d) == {} {
      NoHeldIsCalm(d, p);
    } else {
      var q :| q in HeldPlans(d);
      ResolveWaits(d, p, q);
      hide ResolvePlan;
      QuietedTouches(ResolvePlan(d, q, d.plans[q].owner, false), p);
      ResolveTo(d, q, d.plans[q].owner, p);
    }
  }

  lemma NoHeldIsCalm(d: Db, p: PlanId)
    requires Inv(d) && Waits(d, p) && Quieted(d, p) && d.locks == map[] && HeldPlans(d) == {}
    ensures CanTouch(d, p)
  {
    forall q | q in d.plans ensures !HeldPlan(d.plans[q].status) { assert q !in HeldPlans(d); }
    CalmedTouches(d, p);
  }

  // ---------- from the held plans back to the running attempts ----------

  // Apart from claims lost for good, every unreleased claim is live.
  ghost predicate Fresh(d: Db) { forall u | OpenClaim(d, u) :: LiveClaim(d, u) || Leaked(d, u) }

  lemma CrashTo(d: Db, ws: Workspace, p: PlanId)
    requires CanTouch(CrashApply(d, ws), p)
    ensures CanTouch(d, p)
  {
    hide CrashApply, CanTouch;
    StepTo(d, CrashStep(ws), p);
  }

  lemma LocksFrame(d: Db, e: Db, p: PlanId)
    requires Waits(d, p) && Lone(d, p) && e == d.(locks := e.locks, workers := e.workers)
    ensures Waits(e, p) && Lone(e, p) && (Quieted(d, p) ==> Quieted(e, p)) && (Fresh(d) ==> Fresh(e))
  {
    assert forall u :: Leaked(e, u) <==> Leaked(d, u);
    assert forall u :: LiveClaim(e, u) <==> LiveClaim(d, u);
    assert Requeueable(d, d.plans[p].task) <==> Requeueable(e, d.plans[p].task);
    assert forall a :: StartedReady(d, p, a) ==> StartedReady(e, p, a);
    hide Leaked, Requeueable;
  }

  lemma {:induction false} UnlockedTouches(d: Db, p: PlanId)
    requires Inv(d) && Waits(d, p) && Lone(d, p) && Quieted(d, p)
    ensures CanTouch(d, p)
    decreases |d.locks|
  {
    hide CanTouch, Inv, Waits, Lone, Quieted;
    if d.locks == map[] {
      QuietedTouches(d, p);
    } else {
      var ws :| ws in d.locks;
      var e := CrashApply(d, ws);
      assert e.locks.Keys == d.locks.Keys - {ws} && |d.locks| == |d.locks.Keys| && |e.locks| == |e.locks.Keys|;
      CrashApplyKeeps(d, ws);
      WaitsKnows(d, p);
      LocksFrame(d, e, p);
      UnlockedTouches(e, p);
      CrashTo(d, ws, p);
    }
  }

  lemma WaitsKnows(d: Db, p: PlanId)
    requires Waits(d, p)
    ensures p in d.plans && OpenPlan(d.plans[p].status) && d.plans[p].task in d.tasks
  {
  }

  // How the live attempt of `u` is ended: the request waits for its plan, anything else is held.
  function Ending(d: Db, u: TaskId, t: TaskId): Outcome
    requires u in d.tasks
  {
    if u == t && d.tasks[u].status.Running? then OutAwaiting else OutBlocked
  }

  lemma FinishTo(d: Db, r: Record, o: Outcome, p: PlanId)
    requires CanTouch(Finish(d, r, o, false, false), p)
    ensures CanTouch(d, p)
  {
    hide Finish, CanTouch;
    StepTo(d, FinishStep(r, o, false, false), p);
  }

  lemma EndCommits(d: Db, u: TaskId, o: Outcome)
    requires Inv(d) && u in d.tasks && LiveClaim(d, u) && (o.OutBlocked? || (o.OutAwaiting? && d.tasks[u].status.Running? && LivePlan(d, u)))
    ensures var r := Record(u, d.claims[u].exec, d.claims[u].worker);
      FinishCommits(d, r, o, false) && Committed(d, r, o, false) == o
  {
    assert ClaimRow(d, u) && ResultRow(d, d.claims[u].exec);
  }

  lemma EndEffect(d: Db, u: TaskId, o: Outcome)
    requires Inv(d) && u in d.tasks && LiveClaim(d, u) && (o.OutBlocked? || (o.OutAwaiting? && d.tasks[u].status.Running? && LivePlan(d, u)))
    ensures var e := Finish(d, Record(u, d.claims[u].exec, d.claims[u].worker), o, false, false);
      && Inv(e) && e == d.(tasks := e.tasks, execs := e.execs, claims := e.claims, results := e.results, turns := e.turns, sessions := e.sessions)
      && e.tasks == d.tasks[u := d.tasks[u].(status := TaskAfter(o), eligible := false)]
      && e.claims == d.claims[u := d.claims[u].(released := true)]
  {
    var r := Record(u, d.claims[u].exec, d.claims[u].worker);
    EndCommits(d, u, o);
    FinishKeeps(d, r, o, false, false);
    FinishFrame(d, r, o, false, false);
    hide Inv, Unresolved, LivePlan, Committed, MarkTurn, MarkSession;
    assert Commit(d, r, o).tasks == d.tasks[u := d.tasks[u].(status := TaskAfter(o), eligible := false)];
  }

  // What an ended attempt leaves: its claim is released, so nothing is lost by it.
  lemma EndSpares(d: Db, e: Db, u: TaskId, o: Outcome)
    requires Inv(d) && Keeps(d, e) && u in d.tasks && LiveClaim(d, u)
    requires e.tasks == d.tasks[u := d.tasks[u].(status := TaskAfter(o), eligible := false)]
    requires e.claims == d.claims[u := d.claims[u].(released := true)] && e.clock == d.clock
    ensures Spares(d, e) && (Fresh(d) ==> Fresh(e))
  {
    assert ClaimRow(d, u);
    forall v | Leaked(e, v) ensures Leaked(d, v) { assert ClaimRow(d, v); }
    forall v | Leaked(d, v) ensures Leaked(e, v) { assert LeakStays(d, e, v); }
  }

  lemma EndParent(d: Db, e: Db, u: TaskId, p: PlanId)
    requires Inv(d) && p in d.plans && OpenPlan(d.plans[p].status) && Spares(d, e)
    requires u in d.tasks && LiveClaim(d, u)
    requires e.tasks == d.tasks[u := d.tasks[u].(status := TaskAfter(Ending(d, u, d.plans[p].task)), eligible := false)]
    requires e.claims == d.claims[u := d.claims[u].(released := true)] && e.clock == d.clock && e.plans == d.plans
    ensures ParentReady(d, d.plans[p].task) ==> ParentReady(e, d.plans[p].task)
  {
    assert ClaimRow(d, u);
    hide Inv, Leaked, Spares;
    if Requeueable(d, d.plans[p].task) { RequeueOn(d, e, d.plans[p].task); }
    hide Requeueable;
  }

  lemma EndStarted(d: Db, e: Db, u: TaskId, p: PlanId, a: TaskId)
    requires Inv(d) && StartedReady(d, p, a) && u in d.tasks && LiveClaim(d, u) && d.tasks[u].kind != Apply(p)
    requires e.tasks == d.tasks[u := d.tasks[u].(status := TaskAfter(Ending(d, u, d.plans[p].task)), eligible := false)]
    requires e.claims == d.claims[u := d.claims[u].(released := true)] && e.clock == d.clock && e.plans == d.plans
    ensures StartedReady(e, p, a)
  {
    assert ClaimRow(d, u) && PlanRow(d, p) && TaskRow(d, a) && ApartClaims(d, a, u);
  }

  lemma EndWaits(d: Db, e: Db, u: TaskId, p: PlanId)
    requires Inv(d) && Waits(d, p) && Lone(d, p) && Spares(d, e)
    requires u in d.tasks && LiveClaim(d, u) && d.tasks[u].kind != Apply(p)
    requires e.tasks == d.tasks[u := d.tasks[u].(status := TaskAfter(Ending(d, u, d.plans[p].task)), eligible := false)]
    requires e.claims == d.claims[u := d.claims[u].(released := true)] && e.clock == d.clock && e.plans == d.plans
    ensures Waits(e, p) && Lone(e, p)
  {
    hide Inv, Leaked, Spares, ParentReady, StartedReady, SiblingsFinish, Startable;
    EndParent(d, e, u, p);
    forall a | StartedReady(d, p, a) ensures StartedReady(e, p, a) { EndStarted(d, e, u, p, a); }
    WaitsOn(d, e, p);
  }

  ghost function AtWork(d: Db, p: PlanId): set<TaskId> { set u | u in d.claims && LiveClaim(d, u) && u in d.tasks && d.tasks[u].kind != Apply(p) }

  lemma PlanIsLive(d: Db, p: PlanId)
    requires Waits(d, p)
    ensures LivePlan(d, d.plans[p].task)
  {
  }

  lemma EndAtWork(d: Db, e: Db, u: TaskId, p: PlanId)
    requires u in d.tasks && LiveClaim(d, u) && e.clock == d.clock && e.claims == d.claims[u := d.claims[u].(released := true)]
    requires e.tasks.Keys == d.tasks.Keys && forall v | v in d.tasks :: e.tasks[v].kind == d.tasks[v].kind
    ensures AtWork(e, p) == AtWork(d, p) - {u}
  {
  }

  lemma EndWork(d: Db, p: PlanId, u: TaskId)
    requires Inv(d) && Waits(d, p) && Lone(d, p) && Fresh(d) && u in AtWork(d, p)
    ensures var o := Ending(d, u, d.plans[p].task);
      var e := Finish(d, Record(u, d.claims[u].exec, d.claims[u].worker), o, false, false);
      Inv(e) && Waits(e, p) && Lone(e, p) && Fresh(e) && AtWork(e, p) == AtWork(d, p) - {u}
  {
    var o := Ending(d, u, d.plans[p].task);
    var r := Record(u, d.claims[u].exec, d.claims[u].worker);
    PlanIsLive(d, p);
    EndEffect(d, u, o);
    FinishKeeps(d, r, o, false, false);
    hide Inv, Finish, Waits, Lone, Fresh, Spares, LivePlan, Ending;
    EndAtWork(d, Finish(d, r, o, false, false), u, p);
    hide AtWork;
    EndSpares(d, Finish(d, r, o, false, false), u, o);
    EndWaits(d, Finish(d, r, o, false, false), u, p);
  }

  lemma {:induction false} FreshTouches(d: Db, p: PlanId)
    requires Inv(d) && Waits(d, p) && Lone(d, p) && Fresh(d)
    ensures CanTouch(d, p)
    decreases |AtWork(d, p)|
  {
    hide CanTouch, Inv, Waits, Lone;
    WaitsKnows(d, p);
    if AtWork(d, p) == {} {
      forall u | u in d.tasks && OpenClaim(d, u) ensures Leaked(d, u) || d.tasks[u].kind == Apply(p) { assert u !in AtWork(d, p); }
      UnlockedTouches(d, p);
    } else {
      var u :| u in AtWork(d, p);
      var o, r := Ending(d, u, d.plans[p].task), Record(u, d.claims[u].exec, d.claims[u].worker);
      EndWork(d, p, u);
      hide Finish, Fresh, Ending;
      FreshTouches(Finish(d, r, o, false, false), p);
      FinishTo(d, r, o, p);
    }
  }

  // ---------- from the running attempts back to any state ----------

  // Every worker has just reported, so that a recovery takes expired claims only.
  ghost predicate AllReport(d: Db) { forall w | w in d.workers :: d.workers[w] == Worker(d.clock, false) }

  lemma InterruptedNow(d: Db, u: TaskId)
    requires Inv(d) && AllReport(d) && u in d.tasks
    ensures Interrupted(d, u) <==> ActiveTask(d.tasks[u].status) && !LiveClaim(d, u)
  {
    assert TaskRow(d, u) && ClaimRow(d, u);
  }

  lemma RecoverTo(d: Db, p: PlanId)
    requires CanTouch(Recover(d), p)
    ensures CanTouch(d, p)
  {
    hide Recover, CanTouch;
    StepTo(d, RecoverStep, p);
  }

  lemma RecoverRows(d: Db, u: TaskId)
    ensures var e := Recover(d);
      && e.tasks.Keys == d.tasks.Keys && e.claims.Keys == d.claims.Keys
      && (u in d.tasks ==> e.tasks[u] == if Interrupted(d, u) then d.tasks[u].(status := Blocked, eligible := false) else d.tasks[u])
      && (u in d.claims ==> e.claims[u] == if u in d.tasks && Interrupted(d, u) && d.tasks[u].current.Some? then d.claims[u].(released := true) else d.claims[u])
  {
    hide Interrupted, LosesExec;
  }

  lemma RecoverSpares(d: Db)
    requires Inv(d)
    ensures Spares(d, Recover(d))
  {
    var e := Recover(d);
    forall u | u in d.tasks ensures e.tasks.Keys == d.tasks.Keys && e.tasks[u] == d.tasks[u].(status := e.tasks[u].status, eligible := e.tasks[u].eligible) {
      RecoverRows(d, u);
    }
    RecoverRows(d, 0);
    hide Recover, Inv;
    forall u | Leaked(e, u) ensures Leaked(d, u) { NoRecoveryLeak(d, u); }
  }

  lemma NoRecoveryLeak(d: Db, u: TaskId)
    requires Inv(d) && Leaked(Recover(d), u)
    ensures Leaked(d, u)
  {
    hide Inv, Recover, Leaked;
    OnlyClosingLeaks(d, RecoverStep, u);
  }

  lemma RecoverFresh(d: Db)
    requires Inv(d) && AllReport(d)
    ensures Fresh(Recover(d))
  {
    var e := Recover(d);
    RecoverKeeps(d);
    forall u | OpenClaim(e, u) ensures LiveClaim(e, u) || Leaked(e, u) {
      RecoverRows(d, u);
      assert ClaimRow(d, u) && LeakStays(d, e, u);
      InterruptedNow(d, u);
    }
  }

  // Recovery turns an expired attempt of the request into a hold.
  lemma RecoverParent(d: Db, p: PlanId)
    requires Inv(d) && AllReport(d) && p in d.plans
    ensures ParentReady(d, d.plans[p].task) ==> ParentReady(Recover(d), d.plans[p].task)
  {
    var e, t := Recover(d), d.plans[p].task;
    RecoverSpares(d);
    RecoverFrame(d);
    RecoverRows(d, t);
    assert PlanRow(d, p);
    InterruptedNow(d, t);
    hide Inv, Recover, Leaked, Spares, AllReport, Interrupted;
    if Requeueable(d, t) { RequeueOn(d, e, t); }
    hide Requeueable;
  }

  lemma RecoverStarted(d: Db, p: PlanId, a: TaskId)
    requires Inv(d) && AllReport(d) && StartedReady(d, p, a)
    ensures StartedReady(Recover(d), p, a)
  {
    var t := d.plans[p].task;
    assert TaskRow(d, a) && ClaimRow(d, t) && TaskRow(d, t) && PlanRow(d, p) && ApartClaims(d, a, t);
    RecoverFrame(d);
    RecoverRows(d, a);
    InterruptedNow(d, a);
    RecoverRows(d, t);
    InterruptedNow(d, t);
    hide Inv, Recover, Interrupted;
  }

  lemma RecoverWaits(d: Db, p: PlanId)
    requires Inv(d) && AllReport(d) && Waits(d, p) && Lone(d, p)
    ensures Waits(Recover(d), p) && Lone(Recover(d), p)
  {
    var e := Recover(d);
    RecoverSpares(d);
    RecoverFrame(d);
    forall a | a in d.tasks && d.tasks[a].kind == Apply(p) && d.tasks[a].status.Queued? ensures e.tasks[a].status.Queued? {
      RecoverRows(d, a);
      InterruptedNow(d, a);
    }
    hide Inv, Recover, Leaked, Spares, ParentReady, StartedReady, AllReport, SiblingsFinish, Startable;
    RecoverParent(d, p);
    forall a | StartedReady(d, p, a) ensures StartedReady(e, p, a) { RecoverStarted(d, p, a); }
    WaitsOn(d, e, p);
  }

  lemma ReportedTouches(d: Db, p: PlanId)
    requires Inv(d) && Waits(d, p) && Lone(d, p) && AllReport(d)
    ensures CanTouch(d, p)
  {
    RecoverKeeps(d);
    RecoverFresh(d);
    RecoverWaits(d, p);
    hide Inv, Recover, Waits, Lone, Fresh, CanTouch;
    FreshTouches(Recover(d), p);
    RecoverTo(d, p);
  }

  ghost function Silent(d: Db): set<WorkerId> { set w | w in d.workers && d.workers[w] != Worker(d.clock, false) }

  lemma {:induction false} LoneTouches(d: Db, p: PlanId)
    requires Inv(d) && Waits(d, p) && Lone(d, p)
    ensures CanTouch(d, p)
    decreases |Silent(d)|
  {
    hide CanTouch, Inv, Waits, Lone;
    WaitsKnows(d, p);
    if Silent(d) == {} {
      forall w | w in d.workers ensures d.workers[w] == Worker(d.clock, false) { assert w !in Silent(d); }
      ReportedTouches(d, p);
    } else {
      var w :| w in Silent(d);
      var e := Heartbeat(d, w, false);
      assert Silent(e) == Silent(d) - {w};
      HeartbeatKeeps(d, w, false);
      LocksFrame(d, e, p);
      LoneTouches(e, p);
      HeartbeatTo(d, w, p);
    }
  }

  // ---------- a sibling that is being applied finishes first ----------

  lemma CommitTo(d: Db, ws: Workspace, p: PlanId)
    requires CanTouch(CommitApply(d, ws, true), p)
    ensures CanTouch(d, p)
  {
    hide CommitApply, CanTouch;
    StepTo(d, CommitStep(ws, true), p);
  }

  // The sibling's plan is applied and nothing else changes.
  lemma CommittedWaits(d: Db, e: Db, p: PlanId, q: PlanId)
    requires Inv(d) && Waits(d, p) && q in d.plans && d.plans[q].task == d.plans[p].task && HeldPlan(d.plans[q].status)
    requires e == d.(plans := d.plans[q := d.plans[q].(status := PlanApplied)], workers := e.workers, locks := e.locks)
    ensures Waits(e, p) && Lone(e, p)
  {
    assert PlanRow(d, p) && PlanRow(d, q);
    forall o | o in d.plans && o != q && d.plans[o].task == d.plans[p].task ensures !HeldPlan(d.plans[o].status) {
      assert PlanRow(d, o) && ApartPlans(d, o, q);
    }
    hide Inv;
    assert forall u :: Leaked(e, u) <==> Leaked(d, u);
    assert forall u :: LiveClaim(e, u) <==> LiveClaim(d, u);
    assert forall a | StartedReady(d, p, a) :: StartedReady(e, p, a);
    hide Leaked;
    assert !Requeueable(d, d.plans[p].task);
    hide Requeueable;
    WaitsOn(d, e, p);
  }

  lemma SiblingTouches(d: Db, p: PlanId, q: PlanId)
    requires Inv(d) && Waits(d, p) && q in d.plans && d.plans[q].task == d.plans[p].task && HeldPlan(d.plans[q].status)
    ensures CanTouch(d, p)
  {
    assert Applies(d, q);
    AppliesMeans(d, q);
    var ws := d.plans[q].workspace;
    var w := d.locks[ws].record.worker;
    var b := Heartbeat(d, w, false);
    var e := CommitApply(b, ws, true);
    HeartbeatKeeps(d, w, false);
    CommitApplyKeeps(b, ws, true);
    assert e == SetPlan(b, q, PlanApplied).(locks := b.locks - {ws});
    hide Inv, Waits, Lone, CanTouch, Applies, CommitApply, Heartbeat;
    CommittedWaits(d, e, p, q);
    LoneTouches(e, p);
    CommitTo(b, ws, p);
    HeartbeatTo(d, w, p);
  }

  // ---------- the condition is exact ----------

  lemma AliveTouches(d: Db, p: PlanId)
    requires Inv(d) && Alive(d, p)
    ensures CanTouch(d, p)
  {
    hide Inv, CanTouch, Applies, Waits;
    if Applies(d, p) {
      ApplyingTouches(d, p);
    } else {
      WaitsKnows(d, p);
      if q :| q in d.plans && d.plans[q].task == d.plans[p].task && HeldPlan(d.plans[q].status) {
        SiblingTouches(d, p, q);
      } else {
        LoneTouches(d, p);
      }
    }
  }

  lemma {:induction false} PathBack(states: seq<Db>, steps: seq<Step>, d: Db, f: Db, p: PlanId)
    requires Inv(d) && p in d.plans && Path(states, steps, d, f) && Alive(f, p)
    ensures Alive(d, p)
    decreases |steps|
  {
    hide Next, Inv, Alive;
    if steps != [] {
      assert Follows(states, steps, 0);
      StepKeeps(d, steps[0]);
      PlanBack(d, steps[0], p);
      forall i: nat ensures Follows(states[1..], steps[1..], i) { assert Follows(states, steps, i + 1); }
      PathBack(states[1..], steps[1..], states[1], f, p);
      AliveBack(d, steps[0], p);
    }
  }

  // From any reachable ledger the files of a plan can still be changed if and only if the
  // plan is alive there.
  lemma TouchableExactly(d: Db, p: PlanId)
    requires Inv(d) && p in d.plans
    ensures CanTouch(d, p) <==> Alive(d, p)
  {
    hide Inv, Alive, Touches, CanTouch;
    if Alive(d, p) { AliveTouches(d, p); }
    if CanTouch(d, p) { TouchableIsAlive(d, p); }
  }

  lemma TouchableIsAlive(d: Db, p: PlanId)
    requires Inv(d) && p in d.plans && CanTouch(d, p)
    ensures Alive(d, p)
  {
    hide Inv, Alive, Touches, Path;
    var f, s :| Leads(d, f) && Touches(f, s, p);
    LeadsKeeps(d, f);
    TouchIsAlive(f, s, p);
    var states, steps :| Path(states, steps, d, f);
    PathBack(states, steps, d, f, p);
  }
}
