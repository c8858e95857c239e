// The rows of the shared SQLite ledger and the read-only queries over them.
// `agent_tasks` and its `task_operations` row are one `Task`; every table is a map.
module LedgerTypes {
  import opened Options
  import opened FilePlans

  type TaskId = nat
  type ExecId = nat
  type PlanId = nat
  type WorkerId = nat
  type Owner = nat
  type Workspace = nat

  const LEASE_SECONDS := 30
  const HEARTBEAT_SECONDS := 30
  const PLAN_SECONDS := 3600
  const MAX_ATTEMPTS := 3

  datatype TaskStatus = Queued | Running | Cancelling | AwaitingApproval | Blocked | Completed | Failed | Cancelled

  datatype ExecStatus =
    | ExecPending | ExecStarting | ExecRunning | ExecCancelling | ExecAwaiting | ExecStale
    | ExecSucceeded | ExecFailed | ExecCancelled | ExecTimedOut | ExecLost

  datatype PlanStatus =
    | PlanPending | PlanApproved | PlanApplying | PlanUncertain | PlanApplied | PlanReconciled
    | PlanRevoked | PlanExpired

  datatype Outcome = OutSucceeded | OutFailed | OutTimedOut | OutCancelled | OutAwaiting | OutBlocked

  datatype Delivery = Unsent | Sending | Delivered | SendUncertain | Acknowledged

  datatype Kind = Request | Apply(plan: PlanId)

  datatype Worker = Worker(heartbeat: int, closed: bool)

  datatype Task = Task(
    owner: Owner, workspace: Workspace, kind: Kind, parent: Option<TaskId>, source: Option<nat>,
    rowid: nat, created: int, priority: int,
    status: TaskStatus, current: Option<ExecId>,
    worker: WorkerId, eligible: bool, attempts: nat, limit: nat)

  datatype Claim = Claim(worker: WorkerId, owner: Owner, exec: ExecId, expires: int, released: bool)

  // `claimed` tells an attempt started by `claim` from the record of a failed worker start.
  datatype Exec = Exec(task: TaskId, status: ExecStatus, started: int, ended: Option<int>, claimed: bool)

  datatype Plan = Plan(
    task: TaskId, owner: Owner, workspace: Workspace, changes: seq<Change>, hash: seq<Change>,
    status: PlanStatus, expires: int, created: int)

  datatype Saved = Saved(task: TaskId, outcome: Outcome, delivery: Delivery)

  // A `plan.resolved` event: the attempts whose effects the owner has acknowledged.
  datatype Resolution = Resolution(task: TaskId, plan: PlanId, execs: set<ExecId>)

  datatype SessionKey = SessionKey(owner: Owner, conversation: nat, workspace: Workspace)

  datatype Session = Session(generation: nat, next: nat, pending: Option<(TaskId, ExecId)>)

  datatype Turn = Turn(
    session: SessionKey, generation: nat, sequence: nat, related: Option<TaskId>,
    question: bool, completed: Option<ExecId>)

  // The worker record and plan of the apply that holds a workspace lock.
  datatype Record = Record(task: TaskId, exec: ExecId, worker: WorkerId)
  datatype Holder = Holder(record: Record, plan: PlanId, owner: Owner)

  datatype Db = Db(
    clock: int,
    rows: nat,
    workers: map<WorkerId, Worker>,
    tasks: map<TaskId, Task>,
    claims: map<TaskId, Claim>,
    execs: map<ExecId, Exec>,
    plans: map<PlanId, Plan>,
    journal: map<PlanId, seq<JournalRow>>,
    results: map<ExecId, Saved>,
    resolutions: set<Resolution>,
    sessions: map<SessionKey, Session>,
    turns: map<TaskId, Turn>,
    locks: map<Workspace, Holder>)

  const EMPTY: Db := Db(0, 0, map[], map[], map[], map[], map[], map[], map[], {}, map[], map[], map[])

  // ---------- status classes ----------

  predicate ActiveTask(s: TaskStatus) { s.Running? || s.Cancelling? }

  predicate TerminalTask(s: TaskStatus) { s.Completed? || s.Failed? || s.Cancelled? }

  // The parent states in which an apply may touch files.
  predicate Receptive(s: TaskStatus) { s.Queued? || s.Running? || s.AwaitingApproval? }

  predicate ActiveExec(s: ExecStatus) { s.ExecRunning? || s.ExecCancelling? }

  predicate TerminalExec(s: ExecStatus) {
    s.ExecSucceeded? || s.ExecFailed? || s.ExecCancelled? || s.ExecTimedOut? || s.ExecLost?
  }

  predicate OpenPlan(s: PlanStatus) { s.PlanPending? || s.PlanApproved? }

  predicate HeldPlan(s: PlanStatus) { s.PlanApplying? || s.PlanUncertain? }

  predicate SettledPlan(s: PlanStatus) { s.PlanApplied? || s.PlanReconciled? }

  // The plan has begun to touch files at some time.
  predicate BegunPlan(s: PlanStatus) { HeldPlan(s) || SettledPlan(s) }

  // ---------- effect evidence ----------

  predicate LostResolved(d: Db, owner: TaskId, e: ExecId) {
    exists r | r in d.resolutions ::
      r.task == owner && e in r.execs && r.plan in d.plans
      && d.plans[r.plan].task == owner && SettledPlan(d.plans[r.plan].status)
  }

  predicate OpenAttempt(d: Db, owner: TaskId, e: ExecId, includeLost: bool)
    requires e in d.execs
  {
    match d.execs[e].status
    case ExecStale | ExecStarting | ExecRunning | ExecCancelling => true
    case ExecLost => includeLost && !LostResolved(d, owner, e)
    case _ => false
  }

  predicate OpenJournal(d: Db, p: PlanId)
    requires p in d.plans
  {
    HeldPlan(d.plans[p].status) || (p in d.journal && !SettledPlan(d.plans[p].status))
  }

  predicate OpenEffect(d: Db, owner: TaskId, c: TaskId, includeLost: bool) {
    || (exists e | e in d.execs :: d.execs[e].task == c && OpenAttempt(d, owner, e, includeLost))
    || (exists p | p in d.plans :: d.plans[p].task == c && OpenJournal(d, p))
  }

  // Effects of an apply are settled on behalf of the task that proposed its plan.
  function ResolutionOwner(d: Db, t: TaskId): TaskId
    requires t in d.tasks
  {
    if d.tasks[t].kind.Apply? && d.tasks[t].parent.Some? then d.tasks[t].parent.value else t
  }

  predicate InFamily(d: Db, t: TaskId, c: TaskId)
    requires t in d.tasks && c in d.tasks
  {
    c == t || (ResolutionOwner(d, t) == t && d.tasks[c].parent == Some(t))
  }

  predicate Unresolved(d: Db, t: TaskId, includeLost: bool)
    requires t in d.tasks
  {
    exists c | c in d.tasks :: InFamily(d, t, c) && OpenEffect(d, ResolutionOwner(d, t), c, includeLost)
  }

  // ---------- scheduling and ownership queries ----------

  predicate OpenClaim(d: Db, t: TaskId) { t in d.claims && !d.claims[t].released }

  predicate LiveClaim(d: Db, t: TaskId) { OpenClaim(d, t) && d.claims[t].expires > d.clock }

  function OpenClaims(d: Db): set<TaskId> { set t | t in d.claims && !d.claims[t].released }

  predicate WorkerReady(d: Db, w: WorkerId) {
    w in d.workers && !d.workers[w].closed && d.workers[w].heartbeat >= d.clock - HEARTBEAT_SECONDS
  }

  predicate ReadyInQueue(d: Db, t: TaskId)
    requires t in d.tasks
  {
    var r := d.tasks[t];
    r.status.Queued? && r.eligible && r.attempts < r.limit
  }

  predicate SameThread(d: Db, t: TaskId, u: TaskId) {
    && t in d.turns && u in d.turns && t != u
    && d.turns[t].session == d.turns[u].session && d.turns[t].generation == d.turns[u].generation
  }

  predicate HasEarlierWork(d: Db, t: TaskId) {
    exists u | u in d.turns :: SameThread(d, t, u) && u in d.tasks
      && (ActiveTask(d.tasks[u].status)
          || (d.turns[u].sequence < d.turns[t].sequence && ReadyInQueue(d, u)))
  }

  // A reviewed apply shares its workspace with no other claimed operation.
  predicate Excluded(d: Db, t: TaskId)
    requires t in d.tasks
  {
    exists u | u in d.claims :: !d.claims[u].released && u in d.tasks
      && d.tasks[u].workspace == d.tasks[t].workspace && (d.tasks[t].kind.Apply? || d.tasks[u].kind.Apply?)
  }

  predicate Candidate(d: Db, t: TaskId, w: WorkerId) {
    t in d.tasks && ReadyInQueue(d, t) && d.tasks[t].worker == w
  }

  predicate Claimable(d: Db, t: TaskId, w: WorkerId) {
    Candidate(d, t, w) && !HasEarlierWork(d, t) && !Excluded(d, t)
  }

  // ORDER BY priority, created_at, rowid
  predicate Before(a: Task, b: Task) {
    || a.priority < b.priority
    || (a.priority == b.priority && a.created < b.created)
    || (a.priority == b.priority && a.created == b.created && a.rowid < b.rowid)
  }

  predicate Interrupted(d: Db, t: TaskId)
    requires t in d.tasks
  {
    var r := d.tasks[t];
    && r.eligible && (r.status.Queued? || ActiveTask(r.status))
    && r.worker in d.workers
    && (d.workers[r.worker].closed || d.workers[r.worker].heartbeat < d.clock - HEARTBEAT_SECONDS
        || (OpenClaim(d, t) && d.claims[t].expires <= d.clock))
  }

  // `require_execution_ownership`
  predicate Owns(d: Db, r: Record, owner: Owner) {
    && r.task in d.tasks && r.task in d.claims && r.exec in d.execs && r.worker in d.workers
    && var t, c, w := d.tasks[r.task], d.claims[r.task], d.workers[r.worker];
    && t.current == Some(r.exec) && c.exec == r.exec && d.execs[r.exec].task == r.task
    && c.worker == r.worker && t.worker == r.worker && t.owner == owner && c.owner == owner
    && t.status.Running? && d.execs[r.exec].status.ExecRunning? && t.eligible
    && !c.released && c.expires > d.clock
    && !w.closed && w.heartbeat > d.clock - HEARTBEAT_SECONDS
  }

  // `require_eligible` of a claimed apply; `draft` is the draft guard, which can only refuse.
  predicate MayTouch(d: Db, h: Holder, expected: PlanStatus, draft: bool) {
    && draft
    && h.plan in d.plans
    && var p := d.plans[h.plan];
    && p.owner == h.owner && p.status == expected && p.expires > d.clock
    && p.task in d.tasks && d.tasks[p.task].owner == h.owner && Receptive(d.tasks[p.task].status)
    && Owns(d, h.record, h.owner)
    && d.tasks[h.record.task].kind == Apply(h.plan)
    && d.tasks[h.record.task].parent == Some(p.task)
    && d.tasks[h.record.task].workspace == p.workspace
  }

  // ---------- order of plan states ----------

  predicate PlanMoves(a: PlanStatus, b: PlanStatus) {
    || a == b
    || a.PlanPending?
    || (a.PlanApproved? && !b.PlanPending?)
    || (a.PlanApplying? && (b.PlanUncertain? || SettledPlan(b)))
    || (a.PlanUncertain? && SettledPlan(b))
    || (a.PlanApplied? && b.PlanReconciled?)
  }

  predicate DeliveryMoves(a: Delivery, b: Delivery) {
    || a == b
    || a.Unsent?
    || (a.Sending? && !b.Unsent?)
    || (a.SendUncertain? && b.Acknowledged?)
  }
}
