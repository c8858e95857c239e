// Concurrent controllers and workers over one ledger object: every protocol step is a
// method call, and the sender loop of a controller runs between the calls of all others.
module Controllers {
  import opened Options
  import opened FilePlans
  import opened LedgerTypes
  import opened Transactions
  import opened LedgerInvariants
  import opened LedgerProofs
  import opened CalmProofs
  import opened Protocol
  import opened LedgerStore
  import opened DeliveryLaws
  import Scheduling

  lemma AnswerIsUnique(d: Db, w: WorkerId, slots: int, a: Option<TaskId>, b: Option<TaskId>)
    requires ClaimAnswers(d, w, slots, a) && ClaimAnswers(d, w, slots, b)
    ensures a == b
  {
    if a.Some? && b.Some? { BeforeIsStrict(d.tasks[a.value], d.tasks[b.value]); }
  }

  lemma BeforeIsStrict(a: Task, b: Task)
    ensures !(Before(a, b) && Before(b, a))
  {
  }

  // The step of a worker that asks for work and is given `t`.
  method PerformClaim(l: Ledger, w: WorkerId, slots: int, t: TaskId, x: ExecId)
    requires l.Valid()
    modifies l
    ensures l.Valid() && l.db == ClaimNext(old(l.db), w, slots, t, x)
  {
    hide Inv, ClaimAnswers, StartAttempt;
    if x !in l.db.execs && ClaimAnswers(l.db, w, slots, Some(t)) {
      ghost var d := l.db;
      var answer := l.Claim(w, slots, x);
      AnswerIsUnique(d, w, slots, answer, Some(t));
      Scheduling.ClaimNeverConflicts(d, w, slots, t, x);
    }
  }

  method PerformIntake(l: Ledger, s: Step)
    requires l.Valid() && IntakeStep(s)
    modifies l
    ensures l.Valid() && l.db == Next(old(l.db), s)
  {
    hide Inv, Tick, RegisterWorker, Heartbeat, SubmitRequest, SubmitApply, ApproveAndSubmit, ApprovePlan, RevokePlan, ProposePlan;
    hide StartFailure, Recover, ClaimNext, Renew, Finish, Resume, CancelTask, SettleExpired, BeginApply, MarkJournal, CommitApply;
    hide FailApply, CrashApply, ResolvePlan, ClaimDelivery, SettleDelivery, Acknowledge, ResetSession, Assess;
    match s {
      case SubmitStep(i) => var accepted := l.Submit(i);
      case SubmitApplyStep(i, p) => var accepted := l.SubmitApply(i, p);
      case ApproveAndSubmitStep(i, p, reviewed, draft) => var created := l.ApproveAndSubmit(i, p, reviewed, draft);
      case ResetStep(k) => var generation := l.Reset(k);
      case AssessStep(t, priority) => l.Assess(t, priority);
    }
  }

  method PerformReview(l: Ledger, s: Step)
    requires l.Valid() && PlanReview(s)
    modifies l
    ensures l.Valid() && l.db == Next(old(l.db), s)
  {
    hide Inv, Tick, RegisterWorker, Heartbeat, SubmitRequest, SubmitApply, ApproveAndSubmit, ApprovePlan, RevokePlan, ProposePlan;
    hide StartFailure, Recover, ClaimNext, Renew, Finish, Resume, CancelTask, SettleExpired, BeginApply, MarkJournal, CommitApply;
    hide FailApply, CrashApply, ResolvePlan, ClaimDelivery, SettleDelivery, Acknowledge, ResetSession, Assess;
    match s {
      case ApproveStep(p, owner, reviewed, draft) => var accepted := l.Approve(p, owner, reviewed, draft);
      case RevokeStep(p, owner) => var accepted := l.Revoke(p, owner);
      case ProposeStep(p, t, owner, changes, drafted, draft) => var accepted := l.Propose(p, t, owner, changes, drafted, draft);
      case CancelStep(t, owner, selected) => var answer := l.Cancel(t, owner, selected);
      case SettleExpiredStep(ps, ts) => var settled := l.SettleExpired(ps, ts);
      case ResolveStep(p, owner, complete) => var accepted := l.Resolve(p, owner, complete);
    }
  }

  method PerformAttempt(l: Ledger, s: Step)
    requires l.Valid() && AttemptStep(s)
    modifies l
    ensures l.Valid() && l.db == Next(old(l.db), s)
  {
    hide Inv, Tick, RegisterWorker, Heartbeat, SubmitRequest, SubmitApply, ApproveAndSubmit, ApprovePlan, RevokePlan, ProposePlan;
    hide StartFailure, Recover, ClaimNext, Renew, Finish, Resume, CancelTask, SettleExpired, BeginApply, MarkJournal, CommitApply;
    hide FailApply, CrashApply, ResolvePlan, ClaimDelivery, SettleDelivery, Acknowledge, ResetSession, Assess;
    match s {
      case StartFailureStep(t, owner, x) => var saved := l.RecordStartFailure(t, owner, x);
      case RecoverStep => var count := l.Recover();
      case ClaimStep(w, slots, t, x) => PerformClaim(l, w, slots, t, x);
      case RenewStep(r) => var kept := l.Renew(r);
      case FinishStep(r, outcome, question, draftLive) => var saved := l.Finish(r, outcome, question, draftLive);
      case ResumeStep(t, owner, w) => var accepted := l.Requeue(t, owner, w);
    }
  }

  method PerformApply(l: Ledger, s: Step)
    requires l.Valid() && ApplyStep(s)
    modifies l
    ensures l.Valid() && l.db == Next(old(l.db), s)
  {
    hide Inv, Tick, RegisterWorker, Heartbeat, SubmitRequest, SubmitApply, ApproveAndSubmit, ApprovePlan, RevokePlan, ProposePlan;
    hide StartFailure, Recover, ClaimNext, Renew, Finish, Resume, CancelTask, SettleExpired, BeginApply, MarkJournal, CommitApply;
    hide FailApply, CrashApply, ResolvePlan, ClaimDelivery, SettleDelivery, Acknowledge, ResetSession, Assess;
    match s {
      case BeginStep(r, p, owner, draft, intact) => var begun := l.Begin(r, p, owner, draft, intact);
      case TouchStep(ws, draft) =>
      case MarkStep(ws, i) => l.MarkApplied(ws, i);
      case CommitStep(ws, draft) => var committed := l.CommitFiles(ws, draft);
      case FailStep(ws) => l.MarkUncertain(ws);
      case CrashStep(ws) => l.DropLock(ws);
    }
  }

  method PerformOther(l: Ledger, s: Step)
    requires l.Valid() && !IntakeStep(s) && !PlanReview(s) && !AttemptStep(s) && !ApplyStep(s)
    modifies l
    ensures l.Valid() && l.db == Next(old(l.db), s)
  {
    hide Inv, Tick, RegisterWorker, Heartbeat, SubmitRequest, SubmitApply, ApproveAndSubmit, ApprovePlan, RevokePlan, ProposePlan;
    hide StartFailure, Recover, ClaimNext, Renew, Finish, Resume, CancelTask, SettleExpired, BeginApply, MarkJournal, CommitApply;
    hide FailApply, CrashApply, ResolvePlan, ClaimDelivery, SettleDelivery, Acknowledge, ResetSession, Assess;
    match s {
      case TickStep(now) => l.Tick(now);
      case RegisterStep(w) => l.RegisterWorker(w);
      case HeartbeatStep(w, closed) => l.Heartbeat(w, closed);
      case ClaimDeliveryStep(t, owner, x, attempt) => var won := l.ClaimDelivery(t, owner, x, attempt);
      case SettleDeliveryStep(x, delivered) => l.SettleDelivery(x, delivered);
      case AcknowledgeStep(t, owner) => var accepted := l.Acknowledge(t, owner);
    }
  }

  // Every step of the protocol is what some method of the ledger does.
  method Perform(l: Ledger, s: Step)
    requires l.Valid()
    modifies l
    ensures l.Valid() && l.db == Next(old(l.db), s)
  {
    hide Inv, Next;
    if IntakeStep(s) { PerformIntake(l, s); }
    else if PlanReview(s) { PerformReview(l, s); }
    else if AttemptStep(s) { PerformAttempt(l, s); }
    else if ApplyStep(s) { PerformApply(l, s); }
    else { PerformOther(l, s); }
  }

  ghost function After(d: Db, moves: seq<Step>): Db {
    if moves == [] then d else Next(After(d, moves[..|moves| - 1]), moves[|moves| - 1])
  }

  // Any number of transactions of other threads and processes.
  method Others(l: Ledger, moves: seq<Step>)
    requires l.Valid()
    modifies l
    ensures l.Valid() && l.db == After(old(l.db), moves) && Evolves(old(l.db), l.db)
  {
    hide Inv, Evolves, Next;
    KeepsSelf(l.db);
    var i := 0;
    while i < |moves|
      invariant i <= |moves| && l.Valid() && l.db == After(old(l.db), moves[..i]) && Evolves(old(l.db), l.db)
    {
      ghost var d := l.db;
      NextKeeps(d, moves[i]);
      Perform(l, moves[i]);
      EvolvesTransitive(old(l.db), d, l.db);
      assert moves[..i + 1][..i] == moves[..i];
      i := i + 1;
    }
    assert moves[..i] == moves;
  }

  // ---------- the sender loop ----------

  // What one read of the watcher sees: `result` is the saved result of the current attempt.
  datatype Watched = Watched(status: TaskStatus, attempts: nat, result: Option<(ExecId, Delivery)>)

  function DeliveryState(d: Db, t: TaskId, owner: Owner): Option<Watched> {
    if t in d.tasks && d.tasks[t].owner == owner then
      var r := d.tasks[t];
      Some(Watched(r.status, r.attempts,
                   if r.current.Some? && r.current.value in d.results then Some((r.current.value, d.results[r.current.value].delivery)) else None))
    else None
  }

  lemma SentStays(d: Db, e: Db, x: ExecId)
    requires Evolves(d, e) && x in d.results && !d.results[x].delivery.Unsent?
    ensures x in e.results && !e.results[x].delivery.Unsent? && e.results[x].outcome == d.results[x].outcome
  {
    assert ResultMoves(d, e, x);
  }

  // Nobody else reports on result `x`: only the thread that claimed it for sending does.
  predicate LeavesSettling(moves: seq<Step>, x: ExecId) {
    forall i :: 0 <= i < |moves| ==> !(moves[i].SettleDeliveryStep? && moves[i].x == x)
  }

  ghost predicate NobodySettles(moves: nat -> seq<Step>, x: ExecId) { forall n {:trigger moves(n)} :: LeavesSettling(moves(n), x) }

  // The sender's report: success or failure as it was, or the owner's acknowledgement if that
  // came first.
  predicate Reported(b: Delivery, fails: bool) { b.Acknowledged? || b == if fails then SendUncertain else Delivered }

  lemma {:induction false} SendingUntilReported(d: Db, moves: seq<Step>, x: ExecId)
    requires Inv(d) && x in d.results && d.results[x].delivery.Sending? && LeavesSettling(moves, x)
    ensures Inv(After(d, moves)) && x in After(d, moves).results
    ensures var b := After(d, moves).results[x].delivery; b.Sending? || b.Acknowledged?
  {
    hide Next, Inv, Evolves;
    if moves != [] {
      var first, s := moves[..|moves| - 1], moves[|moves| - 1];
      var c := After(d, first);
      SendingUntilReported(d, first, x);
      NextKeeps(c, s);
      SentStays(c, Next(c, s), x);
      var b := Next(c, s).results[x].delivery;
      if b != c.results[x].delivery { DeliveryMovesExactly(c, s, x, b); }
    }
  }

  // The watcher has nothing to wait for: its attempt is superseded, its result has been claimed, or
  // its task was held or ended without one.
  ghost predicate Hopeless(d: Db, t: TaskId, owner: Owner, attempt: nat) {
    || t !in d.tasks || d.tasks[t].owner != owner || d.tasks[t].attempts > attempt
    || d.tasks[t].status.Blocked? || d.tasks[t].status.Cancelled? || d.tasks[t].status.Failed?
    || (d.tasks[t].current.Some? && d.tasks[t].current.value in d.results && !d.results[d.tasks[t].current.value].delivery.Unsent?)
  }

  // `rounds` polls happen before the controller closes. `moves` are the transactions of
  // everybody else between two steps of this thread, `fails` tells whether the responder
  // raises. The responder runs where `sent` is assigned: at most once, after this thread has
  // claimed the unsent result of the attempt it watches, and the result is settled afterwards
  // as the responder ended. The thread gives up before its polls are over only if there is nothing
  // to wait for or somebody else was faster with the result it had `seen`; if nobody else moves, it
  // sends exactly the current unsent result of its attempt.
  method Deliver(l: Ledger, t: TaskId, owner: Owner, attempt: nat, rounds: nat, moves: nat -> seq<Step>, fails: bool)
    returns (sent: Option<ExecId>, ghost claimed: Db, ghost polled: nat, ghost seen: Option<ExecId>)
    requires l.Valid()
    modifies l
    ensures l.Valid() && Evolves(old(l.db), l.db)
    ensures sent.None? && polled < rounds ==>
      Hopeless(l.db, t, owner, attempt) || (seen.Some? && !CanSend(l.db, t, owner, seen.value, attempt))
    ensures sent.Some? ==>
      && Inv(claimed) && Evolves(old(l.db), claimed) && CanSend(claimed, t, owner, sent.value, attempt)
      && Evolves(Transactions.ClaimDelivery(claimed, t, owner, sent.value, attempt), l.db)
      && sent.value in l.db.results && l.db.results[sent.value].outcome == claimed.results[sent.value].outcome
      && !l.db.results[sent.value].delivery.Unsent? && !l.db.results[sent.value].delivery.Sending?
      && (NobodySettles(moves, sent.value) ==> Reported(l.db.results[sent.value].delivery, fails))
    ensures rounds > 0 && (forall n :: moves(n) == []) ==>
      forall x: ExecId :: sent == Some(x) <==> CanSend(old(l.db), t, owner, x, attempt)
  {
    hide Inv, Evolves, Next, After;
    sent, claimed, polled, seen := None, l.db, 0, None;
    KeepsSelf(l.db);
    var i := 0;
    while i < rounds
      invariant i == polled <= rounds && sent.None? && l.Valid() && Evolves(old(l.db), l.db)
      invariant (forall n :: moves(n) == []) ==> l.db == old(l.db)
      invariant i > 0 && (forall n :: moves(n) == []) ==> forall x: ExecId :: !CanSend(old(l.db), t, owner, x, attempt)
    {
      ghost var d := l.db;
      Others(l, moves(3 * i));
      EvolvesTransitive(old(l.db), d, l.db);
      NobodyMoves(d, moves(3 * i));
      var state := DeliveryState(l.db, t, owner);
      if state.None? || state.value.attempts > attempt { return; }
      if state.value.attempts == attempt && state.value.result.Some? && !state.value.status.Queued? && !state.value.status.Running? {
        var e := state.value.result.value.0;
        if !state.value.result.value.1.Unsent? { return; }
        seen := Some(e);
        d := l.db;
        Others(l, moves(3 * i + 1));
        EvolvesTransitive(old(l.db), d, l.db);
        NobodyMoves(d, moves(3 * i + 1));
        d := l.db;
        ClaimDeliveryKeeps(d, t, owner, e, attempt);
        var won := l.ClaimDelivery(t, owner, e, attempt);
        EvolvesTransitive(old(l.db), d, l.db);
        if !won { return; }
        sent, claimed := Some(e), d;
        Respond(l, d, t, owner, e, attempt, moves(3 * i + 2), fails);
        EvolvesTransitive(old(l.db), Transactions.ClaimDelivery(d, t, owner, e, attempt), l.db);
        return;
      }
      if state.value.status.Blocked? || state.value.status.Cancelled? || state.value.status.Failed? { return; }
      i, polled := i + 1, polled + 1;
    }
  }

  lemma NobodyMoves(d: Db, moves: seq<Step>)
    ensures moves == [] ==> After(d, moves) == d
  {
  }

  // The responder runs while others go on; then its success or failure is recorded.
  method Respond(l: Ledger, ghost claimed: Db, t: TaskId, owner: Owner, e: ExecId, attempt: nat, moves: seq<Step>, fails: bool)
    requires l.Valid() && CanSend(claimed, t, owner, e, attempt) && l.db == Transactions.ClaimDelivery(claimed, t, owner, e, attempt)
    modifies l
    ensures l.Valid() && Evolves(old(l.db), l.db)
    ensures e in l.db.results && l.db.results[e].outcome == claimed.results[e].outcome
    ensures !l.db.results[e].delivery.Unsent? && !l.db.results[e].delivery.Sending?
    ensures LeavesSettling(moves, e) ==> Reported(l.db.results[e].delivery, fails)
  {
    hide Inv, Evolves, Next, After, LeavesSettling;
    ghost var d := l.db;
    if LeavesSettling(moves, e) { SendingUntilReported(d, moves, e); }
    Others(l, moves);
    SentStays(d, l.db, e);
    ghost var d1 := l.db;
    SettleDeliveryKeeps(d1, e, !fails);
    SettleMoves(d1, e, !fails, e);
    l.SettleDelivery(e, !fails);
    EvolvesTransitive(d, d1, l.db);
  }

  // Of two threads, whatever happens in between, only the one that claims first may send.
  lemma SecondSenderLoses(d: Db, e: Db, t: TaskId, owner: Owner, x: ExecId, attempt: nat, u: TaskId, other: Owner, again: nat)
    requires CanSend(d, t, owner, x, attempt) && Evolves(Transactions.ClaimDelivery(d, t, owner, x, attempt), e)
    ensures !CanSend(e, u, other, x, again)
  {
    SentStays(Transactions.ClaimDelivery(d, t, owner, x, attempt), e, x);
  }
}
