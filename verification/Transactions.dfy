// Each committed transaction of the ledger as a function from state to state.
// A refused or rolled-back transaction is the identity. `now()` is `d.clock`.
module Transactions {
  import opened Options
  import opened FilePlans
  import opened LedgerTypes

  // A new intake; `task` is the fresh identifier it will get.
  datatype Intake = Intake(
    task: TaskId, owner: Owner, workspace: Workspace, worker: WorkerId,
    source: Option<nat>, parent: Option<TaskId>, conversation: Option<nat>)

  // ---------- workers ----------

  ghost function RegisterWorker(d: Db, w: WorkerId): Db {
    if w in d.workers then d else d.(workers := d.workers[w := Worker(d.clock, false)])
  }

  ghost function Heartbeat(d: Db, w: WorkerId, closed: bool): Db {
    if w in d.workers then d.(workers := d.workers[w := Worker(d.clock, closed)]) else d
  }

  // ---------- intake ----------

  predicate SourceTaken(d: Db, source: Option<nat>) {
    source.Some? && exists t | t in d.tasks :: d.tasks[t].source == source
  }

  predicate HasApplyTask(d: Db, p: PlanId) {
    exists t | t in d.tasks :: d.tasks[t].kind == Apply(p)
  }

  predicate CanSubmit(d: Db, i: Intake) {
    WorkerReady(d, i.worker) && !SourceTaken(d, i.source) && i.task !in d.tasks && (i.parent.Some? ==> i.parent.value in d.tasks)
  }

  predicate CanSubmitApply(d: Db, i: Intake, p: PlanId) {
    && WorkerReady(d, i.worker) && !SourceTaken(d, i.source) && i.task !in d.tasks
    && !HasApplyTask(d, p)
    && p in d.plans && d.plans[p].owner == i.owner && d.plans[p].workspace == i.workspace && d.plans[p].status.PlanApproved?
  }

  function NewTask(d: Db, i: Intake, kind: Kind, parent: Option<TaskId>): Task {
    Task(i.owner, i.workspace, kind, parent, i.source, d.rows, d.clock, 100,
         Queued, None, i.worker, true, 0, MAX_ATTEMPTS)
  }

  function Insert(d: Db, i: Intake, kind: Kind, parent: Option<TaskId>): Db {
    d.(tasks := d.tasks[i.task := NewTask(d, i, kind, parent)], rows := d.rows + 1)
  }

  function SessionOf(d: Db, key: SessionKey): Session {
    if key in d.sessions then d.sessions[key] else Session(1, 1, None)
  }

  predicate InGeneration(d: Db, key: SessionKey, g: nat, t: TaskId) {
    t in d.turns && d.turns[t].session == key && d.turns[t].generation == g
  }

  predicate IsNewest(d: Db, key: SessionKey, g: nat, t: TaskId) {
    InGeneration(d, key, g, t) && forall u | u in d.turns && InGeneration(d, key, g, u) :: d.turns[u].sequence <= d.turns[t].sequence
  }

  // ORDER BY sequence DESC LIMIT 1
  ghost function Newest(d: Db, key: SessionKey, g: nat): Option<TaskId> {
    if t: TaskId :| IsNewest(d, key, g, t) then Some(t) else None
  }

  ghost function Bind(d: Db, t: TaskId, key: SessionKey): Db {
    var s := SessionOf(d, key);
    d.(turns := d.turns[t := Turn(key, s.generation, s.next, Newest(d, key, s.generation), false, None)],
       sessions := d.sessions[key := Session(s.generation, s.next + 1, None)])
  }

  ghost function SubmitRequest(d: Db, i: Intake): Db {
    if !CanSubmit(d, i) then d
    else
      var d1 := Insert(d, i, Request, i.parent);
      if i.conversation.Some? then Bind(d1, i.task, SessionKey(i.owner, i.conversation.value, i.workspace)) else d1
  }

  ghost function SubmitApply(d: Db, i: Intake, p: PlanId): Db {
    if CanSubmitApply(d, i, p) then Insert(d, i, Apply(p), Some(d.plans[p].task)) else d
  }

  // `approve_and_submit_apply`: the decision and the admission commit together or not at all.
  ghost function ApproveAndSubmit(d: Db, i: Intake, p: PlanId, reviewed: seq<Change>, draft: bool): Db {
    if HasApplyTask(d, p) || !CanApprove(d, p, i.owner, reviewed, draft) then d
    else
      var d1 := ApprovePlan(d, p, i.owner, reviewed, draft);
      var j := i.(workspace := d.plans[p].workspace, source := None);
      if CanSubmitApply(d1, j, p) then SubmitApply(d1, j, p) else d
  }

  // ---------- plan decisions ----------

  predicate CanApprove(d: Db, p: PlanId, owner: Owner, reviewed: seq<Change>, draft: bool) {
    && draft && p in d.plans && d.plans[p].owner == owner && OpenPlan(d.plans[p].status)
    && d.plans[p].task in d.tasks && Receptive(d.tasks[d.plans[p].task].status)
    && d.plans[p].expires > d.clock && d.plans[p].hash == reviewed
  }

  function SetPlan(d: Db, p: PlanId, s: PlanStatus): Db
    requires p in d.plans
  {
    d.(plans := d.plans[p := d.plans[p].(status := s)])
  }

  ghost function ApprovePlan(d: Db, p: PlanId, owner: Owner, reviewed: seq<Change>, draft: bool): Db {
    if CanApprove(d, p, owner, reviewed, draft) then SetPlan(d, p, PlanApproved) else d
  }

  ghost function RevokePlan(d: Db, p: PlanId, owner: Owner): Db {
    if p in d.plans && d.plans[p].owner == owner && OpenPlan(d.plans[p].status)
    then Settle(SetPlan(d, p, PlanRevoked), d.plans[p].task)
    else d
  }

  function RevokeOpen(plans: map<PlanId, Plan>, t: TaskId): map<PlanId, Plan> {
    map p | p in plans :: if plans[p].task == t && OpenPlan(plans[p].status) then plans[p].(status := PlanRevoked) else plans[p]
  }

  predicate CanPropose(d: Db, p: PlanId, t: TaskId, owner: Owner, changes: seq<Change>, draft: bool) {
    draft && p !in d.plans && t in d.tasks && d.tasks[t].owner == owner && d.tasks[t].kind.Request? && ValidPlan(changes)
  }

  ghost function ProposePlan(d: Db, p: PlanId, t: TaskId, owner: Owner, changes: seq<Change>, drafted: bool, draft: bool): Db {
    if !CanPropose(d, p, t, owner, changes, draft) then d
    else
      var row := Plan(t, owner, d.tasks[t].workspace, changes, changes,
                      if !drafted && CreatesOnly(changes) then PlanApproved else PlanPending, d.clock + PLAN_SECONDS, d.clock);
      d.(plans := RevokeOpen(d.plans, t)[p := row])
  }

  // ---------- closing review state ----------

  predicate HasUnfinishedPlan(d: Db, t: TaskId) {
    exists p | p in d.plans :: d.plans[p].task == t && (OpenPlan(d.plans[p].status) || d.plans[p].status.PlanApplying?)
  }

  function ChildrenOf(d: Db, t: TaskId): set<TaskId> {
    set c | c in d.tasks && d.tasks[c].parent == Some(t)
  }

  // A queued task is withdrawn, an active one is asked to stop.
  function StopTask(r: Task): Task {
    if r.status.Queued? then r.(status := Cancelled, eligible := false)
    else if ActiveTask(r.status) then r.(status := Cancelling)
    else r
  }

  function StopTasks(tasks: map<TaskId, Task>, cs: set<TaskId>): map<TaskId, Task> {
    map t | t in tasks :: if t in cs then StopTask(tasks[t]) else tasks[t]
  }

  function StopExecs(d: Db, cs: set<TaskId>): map<ExecId, Exec> {
    map e | e in d.execs ::
      if d.execs[e].task in cs && d.execs[e].task in d.tasks && ActiveTask(d.tasks[d.execs[e].task].status) && d.execs[e].status.ExecRunning?
      then d.execs[e].(status := ExecCancelling) else d.execs[e]
  }

  function StopChildren(d: Db, cs: set<TaskId>): Db {
    d.(tasks := StopTasks(d.tasks, cs), execs := StopExecs(d, cs))
  }

  // The review attempts of the task end: lost if effects are uncertain, else cancelled.
  function CloseReviews(d: Db, t: TaskId, uncertain: bool): Db {
    d.(execs := map e | e in d.execs ::
         if d.execs[e].task == t && d.execs[e].status.ExecAwaiting?
         then d.execs[e].(status := if uncertain then ExecLost else ExecCancelled, ended := Some(d.clock)) else d.execs[e])
  }

  function SetTask(d: Db, t: TaskId, s: TaskStatus, eligible: bool): Db
    requires t in d.tasks
  {
    d.(tasks := d.tasks[t := d.tasks[t].(status := s, eligible := eligible)])
  }

  // A task that had already ended is held open again if its effects are uncertain.
  ghost function SettleEnded(d: Db, t: TaskId, uncertain: bool): Db
    requires t in d.tasks
  {
    var d1 := CloseReviews(d, t, uncertain);
    if uncertain then SetTask(d1, t, Blocked, d.tasks[t].eligible) else d1
  }

  // The children of a live task are stopped before the task itself is closed.
  ghost function SettleWith(d: Db, t: TaskId, uncertain: bool): Db
    requires t in d.tasks
  {
    SetTask(CloseReviews(StopChildren(d, ChildrenOf(d, t)), t, uncertain), t, if uncertain then Blocked else Cancelled, false)
  }

  // The plan's closing settles its request task now.
  predicate SettleActs(d: Db, t: TaskId) {
    t in d.tasks && !HasUnfinishedPlan(d, t) && !LiveClaim(d, t)
  }

  // `_settle_closed_plan`. The claim is not released, even when it has expired.
  ghost function Settle(d: Db, t: TaskId): Db {
    if !SettleActs(d, t) then d
    else if TerminalTask(d.tasks[t].status) then SettleEnded(d, t, Unresolved(d, t, true))
    else SettleWith(d, t, Unresolved(StopChildren(d, ChildrenOf(d, t)), t, true))
  }

  predicate ExpiredPlan(d: Db, p: PlanId) {
    p in d.plans && OpenPlan(d.plans[p].status) && d.plans[p].expires <= d.clock
  }

  ghost function ExpirePlan(d: Db, p: PlanId): Db
  {
    if p in d.plans && OpenPlan(d.plans[p].status) then Settle(SetPlan(d, p, PlanExpired), d.plans[p].task) else d
  }

  ghost function ExpirePlans(d: Db, ps: seq<PlanId>): Db
    decreases |ps|
  {
    if ps == [] then d else ExpirePlans(ExpirePlan(d, ps[0]), ps[1..])
  }

  // A terminal task whose review attempt still looks open although its plans are closed.
  predicate StaleReview(d: Db, t: TaskId) {
    && t in d.tasks && TerminalTask(d.tasks[t].status)
    && (exists e | e in d.execs :: d.execs[e].task == t && d.execs[e].status.ExecAwaiting?)
    && !HasUnfinishedPlan(d, t)
  }

  ghost function SettleAll(d: Db, ts: seq<TaskId>): Db
    decreases |ts|
  {
    if ts == [] then d else SettleAll(Settle(d, ts[0]), ts[1..])
  }

  // SQLite may return the selected rows in any order.
  predicate Enumerates(order: seq<nat>, items: set<nat>) {
    (set x | x in order) == items && forall i, j :: 0 <= i < j < |order| ==> order[i] != order[j]
  }

  ghost function SettleExpired(d: Db, ps: seq<PlanId>, ts: seq<TaskId>): Db {
    if !Enumerates(ps, set p | p in d.plans && ExpiredPlan(d, p)) then d
    else
      var d1 := ExpirePlans(d, ps);
      if Enumerates(ts, set t | t in d1.tasks && StaleReview(d1, t)) then SettleAll(d1, ts) else d
  }

  // ---------- attempts ----------

  ghost function Recover(d: Db): Db {
    d.(tasks := map t | t in d.tasks ::
                  if Interrupted(d, t) then d.tasks[t].(status := Blocked, eligible := false) else d.tasks[t],
       execs := map e | e in d.execs ::
                  if LosesExec(d, e) then d.execs[e].(status := ExecLost, ended := Some(d.clock)) else d.execs[e],
       claims := map t | t in d.claims ::
                  if t in d.tasks && Interrupted(d, t) && d.tasks[t].current.Some? then d.claims[t].(released := true) else d.claims[t])
  }

  predicate LosesExec(d: Db, e: ExecId)
    requires e in d.execs
  {
    && d.execs[e].task in d.tasks && Interrupted(d, d.execs[e].task)
    && d.tasks[d.execs[e].task].current == Some(e) && !TerminalExec(d.execs[e].status)
  }

  // What `claim` may answer: the first claimable task in queue order, or nothing.
  predicate ClaimAnswers(d: Db, w: WorkerId, slots: int, answer: Option<TaskId>) {
    if |OpenClaims(d)| >= slots then answer == None
    else match answer
      case None => forall t | t in d.tasks :: !Claimable(d, t, w)
      case Some(t) => Claimable(d, t, w)
                      && forall u | u in d.tasks && u != t && Claimable(d, u, w) :: Before(d.tasks[t], d.tasks[u])
  }

  function StartAttempt(d: Db, t: TaskId, e: ExecId, w: WorkerId): Db
    requires t in d.tasks
  {
    var r := d.tasks[t];
    d.(execs := d.execs[e := Exec(t, ExecRunning, d.clock, None, true)],
       claims := d.claims[t := Claim(w, r.owner, e, d.clock + LEASE_SECONDS, false)],
       tasks := d.tasks[t := r.(status := Running, current := Some(e), attempts := r.attempts + 1)])
  }

  // The two primary keys the claim inserts into must be free, or SQLite aborts it.
  predicate ClaimInserts(d: Db, t: TaskId, e: ExecId) {
    e !in d.execs && !OpenClaim(d, t)
  }

  ghost function ClaimNext(d: Db, w: WorkerId, slots: int, t: TaskId, e: ExecId): Db {
    if ClaimAnswers(d, w, slots, Some(t)) && ClaimInserts(d, t, e) then StartAttempt(d, t, e, w) else d
  }

  predicate CanRenew(d: Db, r: Record) {
    LiveClaim(d, r.task) && d.claims[r.task].worker == r.worker && d.claims[r.task].exec == r.exec
  }

  ghost function Renew(d: Db, r: Record): Db {
    if CanRenew(d, r) then d.(claims := d.claims[r.task := d.claims[r.task].(expires := d.clock + LEASE_SECONDS)]) else d
  }

  // The fence of `finish`.
  predicate CanFinish(d: Db, r: Record) {
    && CanRenew(d, r) && r.task in d.tasks && r.exec in d.execs
    && d.tasks[r.task].current == Some(r.exec) && !TerminalExec(d.execs[r.exec].status)
  }

  predicate LivePlan(d: Db, t: TaskId) {
    exists p | p in d.plans :: d.plans[p].task == t && OpenPlan(d.plans[p].status) && d.plans[p].expires > d.clock
  }

  // Whose effects decide whether a stopped attempt may be recorded as cancelled.
  function EffectTask(d: Db, t: TaskId): TaskId
    requires t in d.tasks
  {
    if d.tasks[t].kind.Apply? && d.tasks[t].kind.plan in d.plans then d.plans[d.tasks[t].kind.plan].task else t
  }

  function SetExec(d: Db, e: ExecId, s: ExecStatus): Db
    requires e in d.execs
  {
    d.(execs := d.execs[e := d.execs[e].(status := s, ended := if TerminalExec(s) then Some(d.clock) else None)])
  }

  // The outcome that is committed, which may differ from the one the worker reports.
  function Committed(d: Db, r: Record, outcome: Outcome, draftLive: bool): Outcome
    requires CanFinish(d, r)
  {
    var o1 := if outcome.OutAwaiting? && !LivePlan(d, r.task) && !draftLive then OutCancelled else outcome;
    var o2 := if o1.OutCancelled? && EffectTask(d, r.task) in d.tasks
                 && Unresolved(SetExec(d, r.exec, ExecCancelled), EffectTask(d, r.task), true)
              then OutBlocked else o1;
    if d.execs[r.exec].status.ExecCancelling? && !o2.OutCancelled? then OutBlocked else o2
  }

  function ExecAfter(o: Outcome): ExecStatus {
    match o
    case OutSucceeded => ExecSucceeded
    case OutFailed => ExecFailed
    case OutTimedOut => ExecTimedOut
    case OutCancelled => ExecCancelled
    case OutAwaiting => ExecAwaiting
    case OutBlocked => ExecLost
  }

  function TaskAfter(o: Outcome): TaskStatus {
    match o
    case OutSucceeded => Completed
    case OutFailed | OutTimedOut => Failed
    case OutCancelled => Cancelled
    case OutAwaiting => AwaitingApproval
    case OutBlocked => Blocked
  }

  // A succeeded apply without its applied plan rolls the whole commit back.
  predicate FinishCommits(d: Db, r: Record, outcome: Outcome, draftLive: bool) {
    && CanFinish(d, r) && r.exec !in d.results
    && (Committed(d, r, outcome, draftLive).OutSucceeded? && d.tasks[r.task].kind.Apply? ==>
          d.tasks[r.task].kind.plan in d.plans && d.plans[d.tasks[r.task].kind.plan].status.PlanApplied?)
  }

  function CompleteParent(d: Db, t: TaskId, o: Outcome): map<TaskId, Task>
    requires t in d.tasks
  {
    var parent := EffectTask(d, t);
    if o.OutSucceeded? && d.tasks[t].kind.Apply? && parent in d.tasks && parent != t && d.tasks[parent].status.AwaitingApproval?
    then d.tasks[parent := d.tasks[parent].(status := Completed)] else d.tasks
  }

  predicate LiveTurn(d: Db, t: TaskId) {
    t in d.turns && d.turns[t].session in d.sessions && d.turns[t].generation == d.sessions[d.turns[t].session].generation
  }

  function MarkTurn(d: Db, t: TaskId, e: ExecId, question: bool): map<TaskId, Turn>
    requires t in d.turns
  {
    d.turns[t := d.turns[t].(question := question, completed := Some(e))]
  }

  // Only the newest turn may leave a question pending, and any newer answer clears it.
  function MarkSession(d: Db, t: TaskId, pending: Option<(TaskId, ExecId)>): map<SessionKey, Session>
    requires LiveTurn(d, t)
  {
    var k := d.turns[t].session;
    if d.turns[t].sequence + 1 == d.sessions[k].next then d.sessions[k := d.sessions[k].(pending := pending)] else d.sessions
  }

  function CompleteTurn(d: Db, t: TaskId, e: ExecId, o: Outcome, question: bool): Db {
    if LiveTurn(d, t)
    then d.(turns := MarkTurn(d, t, e, question),
            sessions := MarkSession(d, t, if o.OutSucceeded? && question then Some((t, e)) else None))
    else d
  }

  // The attempt, task, claim and result rows of a commit, and the parent of an apply.
  ghost function Commit(d: Db, r: Record, o: Outcome): Db
    requires r.task in d.tasks && r.exec in d.execs && r.task in d.claims
  {
    var tasks := CompleteParent(d, r.task, o);
    SetExec(d, r.exec, ExecAfter(o)).(
      tasks := tasks[r.task := tasks[r.task].(status := TaskAfter(o), eligible := false)],
      claims := d.claims[r.task := d.claims[r.task].(released := true)],
      results := d.results[r.exec := Saved(r.task, o, Unsent)])
  }

  ghost function Finish(d: Db, r: Record, outcome: Outcome, question: bool, draftLive: bool): Db {
    if !FinishCommits(d, r, outcome, draftLive) then d
    else
      var o := Committed(d, r, outcome, draftLive);
      CompleteTurn(Commit(d, r, o), r.task, r.exec, o, question)
  }

  // ---------- owner controls ----------

  predicate CanRecordFailure(d: Db, t: TaskId, owner: Owner, e: ExecId) {
    && t in d.tasks && d.tasks[t].owner == owner && d.tasks[t].status.Blocked? && d.tasks[t].current.None?
    && e !in d.execs && e !in d.results
  }

  function RecordFailure(d: Db, t: TaskId, e: ExecId): Db
    requires t in d.tasks
  {
    d.(execs := d.execs[e := Exec(t, ExecFailed, d.clock, Some(d.clock), false)],
       results := d.results[e := Saved(t, OutBlocked, Unsent)],
       tasks := d.tasks[t := d.tasks[t].(current := Some(e))])
  }

  // `record_worker_start_failure`
  ghost function StartFailure(d: Db, t: TaskId, owner: Owner, e: ExecId): Db {
    if CanRecordFailure(d, t, owner, e) then RecordFailure(d, t, e) else d
  }

  predicate AmbiguousDelivery(d: Db, t: TaskId)
    requires t in d.tasks
  {
    d.tasks[t].current.Some? && d.tasks[t].current.value in d.results
    && var s := d.results[d.tasks[t].current.value].delivery; s.Sending? || s.SendUncertain?
  }

  predicate CanResume(d: Db, t: TaskId, owner: Owner, w: WorkerId) {
    && t in d.tasks && d.tasks[t].owner == owner && !AmbiguousDelivery(d, t)
    && d.tasks[t].kind.Request? && (d.tasks[t].status.Blocked? || d.tasks[t].status.Failed?)
    && d.tasks[t].attempts < d.tasks[t].limit
    && !Unresolved(d, t, false)
    && !(exists p | p in d.plans :: d.plans[p].task == t && BegunPlan(d.plans[p].status))
    && WorkerReady(d, w)
  }

  // `resume` recovers first, in a transaction of its own.
  ghost function Resume(d: Db, t: TaskId, owner: Owner, w: WorkerId): Db {
    if CanResume(d, t, owner, w)
    then d.(tasks := d.tasks[t := d.tasks[t].(status := Queued, eligible := true, worker := w)]) else d
  }

  // The apply tasks of the plans a cancellation revokes.
  function RevokedChildren(d: Db, t: TaskId): set<TaskId> {
    set c | c in d.tasks && d.tasks[c].parent == Some(t) && d.tasks[c].kind.Apply?
      && d.tasks[c].kind.plan in d.plans && d.plans[d.tasks[c].kind.plan].task == t && OpenPlan(d.plans[d.tasks[c].kind.plan].status)
  }

  function RevokePlans(d: Db, t: TaskId): Db { d.(plans := RevokeOpen(d.plans, t)) }

  function Withdraw(d: Db, t: TaskId): Db { RevokePlans(StopChildren(d, RevokedChildren(d, t)), t) }

  // The live attempt is asked to stop and will acknowledge through `finish`.
  function AskToStop(d: Db, t: TaskId): Db
    requires t in d.tasks && t in d.claims && d.claims[t].exec in d.execs
  {
    var e := d.claims[t].exec;
    d.(execs := d.execs[e := d.execs[e].(status := ExecCancelling)],
       tasks := d.tasks[t := d.tasks[t].(status := Cancelling)])
  }

  // No attempt can acknowledge: the task, its claim and its open attempts are closed at once.
  function CloseTask(d: Db, t: TaskId, uncertain: bool): Db
    requires t in d.tasks
  {
    d.(tasks := d.tasks[t := d.tasks[t].(status := if uncertain then Blocked else Cancelled, eligible := false)],
       claims := if t in d.claims then d.claims[t := d.claims[t].(released := true)] else d.claims,
       execs := map e | e in d.execs ::
         if d.execs[e].task == t && !TerminalExec(d.execs[e].status)
         then d.execs[e].(status := if uncertain then ExecLost else ExecCancelled, ended := Some(d.clock)) else d.execs[e])
  }

  // An attempt that can still acknowledge the stop itself.
  predicate Stoppable(d: Db, t: TaskId)
    requires t in d.tasks
  {
    LiveClaim(d, t) && d.tasks[t].current == Some(d.claims[t].exec)
    && d.claims[t].exec in d.execs && ActiveExec(d.execs[d.claims[t].exec].status)
  }

  // Whether the cancellation gets past its early returns.
  predicate CancelActs(d: Db, t: TaskId, owner: Owner, selected: bool) {
    && t in d.tasks && d.tasks[t].owner == owner && selected
    && !TerminalTask(d.tasks[t].status)
    && !(d.tasks[t].status.Blocked? && Unresolved(d, t, true))
  }

  function CancelWith(d: Db, t: TaskId, uncertain: bool): Db
    requires t in d.tasks
  {
    var w := Withdraw(d, t);
    if Stoppable(d, t) then AskToStop(w, t) else CloseTask(w, t, uncertain)
  }

  ghost function CancelTask(d: Db, t: TaskId, owner: Owner, selected: bool): Db {
    if CancelActs(d, t, owner, selected) then CancelWith(d, t, Unresolved(Withdraw(d, t), t, true)) else d
  }

  // ---------- the apply and its resolution ----------

  predicate CanBegin(d: Db, r: Record, p: PlanId, owner: Owner, draft: bool, intact: bool) {
    && MayTouch(d, Holder(r, p, owner), PlanApproved, draft)
    && d.plans[p].workspace !in d.locks
    && d.plans[p].changes == d.plans[p].hash
    && !(exists q | q in d.plans :: q != p && d.plans[q].workspace == d.plans[p].workspace && HeldPlan(d.plans[q].status))
    && intact && p !in d.journal
  }

  // `intact`: every file still holds its reviewed preimage.
  ghost function BeginApply(d: Db, r: Record, p: PlanId, owner: Owner, draft: bool, intact: bool): Db {
    if CanBegin(d, r, p, owner, draft, intact)
    then SetPlan(d, p, PlanApplying).(journal := d.journal[p := JournalOf(d.plans[p].changes)],
                                      locks := d.locks[d.plans[p].workspace := Holder(r, p, owner)])
    else d
  }

  ghost function CommitApply(d: Db, ws: Workspace, draft: bool): Db {
    if ws in d.locks && MayTouch(d, d.locks[ws], PlanApplying, draft)
    then SetPlan(d, d.locks[ws].plan, PlanApplied).(locks := d.locks - {ws}) else d
  }

  // The `except` branch marks the plan without looking at its status.
  ghost function FailApply(d: Db, ws: Workspace): Db {
    if ws in d.locks && d.locks[ws].plan in d.plans
    then SetPlan(d, d.locks[ws].plan, PlanUncertain).(locks := d.locks - {ws}) else d
  }

  // The process dies: the operating system drops the lock, the ledger is not told.
  ghost function CrashApply(d: Db, ws: Workspace): Db { d.(locks := d.locks - {ws}) }

  ghost function MarkJournal(d: Db, ws: Workspace, i: nat): Db {
    if ws in d.locks && d.locks[ws].plan in d.journal && i < |d.journal[d.locks[ws].plan]|
    then
      var p := d.locks[ws].plan;
      d.(journal := d.journal[p := d.journal[p][i := d.journal[p][i].(applied := true)]])
    else d
  }

  predicate CanResolve(d: Db, p: PlanId, owner: Owner) {
    && p in d.plans && d.plans[p].owner == owner && d.plans[p].workspace !in d.locks
    && d.plans[p].task in d.tasks
    && !(exists t | t in d.claims :: LiveClaim(d, t) && t in d.tasks
           && (t == d.plans[p].task || d.tasks[t].parent == Some(d.plans[p].task)))
    && (HeldPlan(d.plans[p].status)
        || (d.plans[p].status.PlanApplied? && !d.tasks[d.plans[p].task].status.Completed?))
  }

  function ResolvedExecs(d: Db, p: PlanId): set<ExecId>
    requires p in d.plans && d.plans[p].task in d.tasks
  {
    set e | e in d.execs && d.execs[e].status.ExecLost?
      && ((d.execs[e].task == d.plans[p].task && d.tasks[d.plans[p].task].current == Some(e)
           && d.execs[e].started <= d.plans[p].created
           && d.execs[e].ended.Some? && d.execs[e].ended.value >= d.plans[p].created)
          || (d.execs[e].task in d.tasks && d.tasks[d.execs[e].task].parent == Some(d.plans[p].task)
              && d.tasks[d.execs[e].task].kind == Apply(p)))
  }

  ghost function RecordResolution(d: Db, p: PlanId, complete: bool): Db
    requires p in d.plans && d.plans[p].task in d.tasks
  {
    SetPlan(d, p, if complete then PlanApplied else PlanReconciled).(
      resolutions := d.resolutions + {Resolution(d.plans[p].task, p, ResolvedExecs(d, p))})
  }

  // What a resolution makes of each task, given the ledger it was recorded in.
  ghost function Verdict(d: Db, p: PlanId, t: TaskId, complete: bool): Task
    requires t in d.tasks && p in d.plans
  {
    var r := d.tasks[t];
    if t == d.plans[p].task then
      r.(status := if complete && !Unresolved(d, t, true) then Completed else Blocked, eligible := false)
    else if r.kind == Apply(p) && (r.status.Blocked? || r.status.Failed?) then
      r.(status := if Unresolved(d, t, true) then Blocked else if complete then Completed else Cancelled)
    else r
  }

  ghost function PassVerdict(d: Db, p: PlanId, complete: bool): Db
    requires p in d.plans
  {
    d.(tasks := map t | t in d.tasks :: Verdict(d, p, t, complete))
  }

  // `complete`: every file was observed at its after-image.
  ghost function ResolvePlan(d: Db, p: PlanId, owner: Owner, complete: bool): Db {
    if CanResolve(d, p, owner) then PassVerdict(RecordResolution(d, p, complete), p, complete) else d
  }

  // ---------- delivery ----------

  predicate OutcomeShown(o: Outcome, s: TaskStatus) { TaskAfter(o) == s }

  predicate CanSend(d: Db, t: TaskId, owner: Owner, e: ExecId, attempt: nat) {
    && e in d.results && d.results[e].delivery.Unsent?
    && t in d.tasks && d.tasks[t].owner == owner && d.tasks[t].current == Some(e)
    && d.tasks[t].attempts == attempt && OutcomeShown(d.results[e].outcome, d.tasks[t].status)
  }

  ghost function ClaimDelivery(d: Db, t: TaskId, owner: Owner, e: ExecId, attempt: nat): Db {
    if CanSend(d, t, owner, e, attempt) then d.(results := d.results[e := d.results[e].(delivery := Sending)]) else d
  }

  ghost function SettleDelivery(d: Db, e: ExecId, delivered: bool): Db {
    if e in d.results && d.results[e].delivery.Sending?
    then d.(results := d.results[e := d.results[e].(delivery := if delivered then Delivered else SendUncertain)]) else d
  }

  ghost function Acknowledge(d: Db, t: TaskId, owner: Owner): Db {
    if t in d.tasks && d.tasks[t].owner == owner && AmbiguousDelivery(d, t)
    then var e := d.tasks[t].current.value; d.(results := d.results[e := d.results[e].(delivery := Acknowledged)]) else d
  }

  // ---------- conversation and routing ----------

  ghost function ResetSession(d: Db, key: SessionKey): Db {
    d.(sessions := d.sessions[key := Session(SessionOf(d, key).generation + 1, 1, None)])
  }

  ghost function Assess(d: Db, t: TaskId, priority: int): Db {
    if t in d.tasks then d.(tasks := d.tasks[t := d.tasks[t].(priority := priority)]) else d
  }

  ghost function Tick(d: Db, now: int): Db {
    if now >= d.clock then d.(clock := now) else d
  }
}
