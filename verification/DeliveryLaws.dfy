// How the delivery of a saved result moves, exactly, and what each settled state says about the
// run that led to it.
module DeliveryLaws {
  import opened Options
  import opened FilePlans
  import opened LedgerTypes
  import opened Transactions
  import opened LedgerInvariants
  import opened LedgerProofs
  import opened Protocol
  import opened Frames

  // The task shows what the result says.
  predicate Tells(o: Outcome, s: TaskStatus) {
    match o
    case OutSucceeded => s.Completed?
    case OutFailed => s.Failed?
    case OutTimedOut => s.Failed?
    case OutCancelled => s.Cancelled?
    case OutAwaiting => s.AwaitingApproval?
    case OutBlocked => s.Blocked?
  }

  // `x` is the result of the attempt that the sender watches, and still what the task shows.
  predicate IsCurrent(d: Db, t: TaskId, owner: Owner, x: ExecId, attempt: nat) {
    && t in d.tasks && d.tasks[t].owner == owner && d.tasks[t].current == Some(x) && d.tasks[t].attempts == attempt
    && x in d.results && Tells(d.results[x].outcome, d.tasks[t].status)
  }

  // Why the delivery of result `x` becomes `b`.
  ghost predicate DeliveryCause(d: Db, s: Step, x: ExecId, b: Delivery)
    requires x in d.results
  {
    var a := d.results[x].delivery;
    match b
    case Unsent => false
    case Sending => a.Unsent? && s.ClaimDeliveryStep? && s.x == x && IsCurrent(d, s.t, s.owner, x, s.attempt)
    case Delivered => a.Sending? && s == SettleDeliveryStep(x, true)
    case SendUncertain => a.Sending? && s == SettleDeliveryStep(x, false)
    case Acknowledged =>
      && (a.Sending? || a.SendUncertain?)
      && s.AcknowledgeStep? && s.t in d.tasks && d.tasks[s.t].owner == s.owner && d.tasks[s.t].current == Some(x)
  }

  lemma ClaimMoves(d: Db, t: TaskId, owner: Owner, y: ExecId, attempt: nat, x: ExecId)
    requires x in d.results
    ensures var e := ClaimDelivery(d, t, owner, y, attempt);
      x in e.results && e.results[x] == d.results[x].(delivery := if x == y && d.results[x].delivery.Unsent? && IsCurrent(d, t, owner, y, attempt) then Sending else d.results[x].delivery)
  {
    if CanSend(d, t, owner, y, attempt) {}
  }

  lemma SettleMoves(d: Db, y: ExecId, delivered: bool, x: ExecId)
    requires x in d.results
    ensures var e := SettleDelivery(d, y, delivered);
      x in e.results && e.results[x] == d.results[x].(delivery :=
        if x == y && d.results[x].delivery.Sending? then if delivered then Delivered else SendUncertain else d.results[x].delivery)
  {
    if y in d.results && d.results[y].delivery.Sending? {}
  }

  lemma AcknowledgeMoves(d: Db, t: TaskId, owner: Owner, x: ExecId)
    requires x in d.results
    ensures var e := Acknowledge(d, t, owner);
      x in e.results && e.results[x] == d.results[x].(delivery :=
        if t in d.tasks && d.tasks[t].owner == owner && d.tasks[t].current == Some(x)
           && (d.results[x].delivery.Sending? || d.results[x].delivery.SendUncertain?) then Acknowledged else d.results[x].delivery)
  {
    if t in d.tasks && d.tasks[t].owner == owner && AmbiguousDelivery(d, t) {}
  }

  lemma OtherMoves(d: Db, s: Step, x: ExecId)
    requires x in d.results && !s.ClaimDeliveryStep? && !s.SettleDeliveryStep? && !s.AcknowledgeStep?
    ensures x in Next(d, s).results && Next(d, s).results[x] == d.results[x]
  {
    if IntakeStep(s) { hide Next; IntakeFrame(d, s); }
    else if PlanReview(s) { hide Next; ReviewFrame(d, s); }
    else if ApplyStep(s) { hide Next; ApplyFrame(d, s); }
    else if AttemptStep(s) { AttemptSparesResults(d, s, x); }
    else { CalmSparesResults(d, s); }
  }

  lemma CalmSparesResults(d: Db, s: Step)
    requires s.TickStep? || s.RegisterStep? || s.HeartbeatStep?
    ensures Next(d, s).results == d.results
  {
    hide Tick, RegisterWorker, Heartbeat, SubmitRequest, SubmitApply, ApproveAndSubmit, ApprovePlan, RevokePlan, ProposePlan;
    hide StartFailure, Recover, ClaimNext, Renew, Finish, Resume, CancelTask, SettleExpired, BeginApply, MarkJournal, CommitApply;
    hide FailApply, CrashApply, ResolvePlan, ClaimDelivery, SettleDelivery, Acknowledge, ResetSession, Assess;
    match s {
      case TickStep(now) => TickFrame(d, now);
      case RegisterStep(w) => RegisterFrame(d, w);
      case HeartbeatStep(w, closed) => HeartbeatFrame(d, w, closed);
    }
  }

  lemma FinishWrites(d: Db, r: Record, outcome: Outcome, question: bool, draftLive: bool)
    ensures var e := Finish(d, r, outcome, question, draftLive);
      || e.results == d.results
      || (r.exec !in d.results && r.exec in e.results && e.results == d.results[r.exec := e.results[r.exec]] && e.results[r.exec].delivery.Unsent?)
  {
    hide Unresolved, LivePlan, CompleteParent, MarkTurn, MarkSession;
    if FinishCommits(d, r, outcome, draftLive) { hide Committed; }
  }

  lemma FailureWrites(d: Db, t: TaskId, owner: Owner, y: ExecId)
    ensures var e := StartFailure(d, t, owner, y);
      || e.results == d.results
      || (y !in d.results && y in e.results && e.results == d.results[y := e.results[y]] && e.results[y].delivery.Unsent?)
  {
    if CanRecordFailure(d, t, owner, y) {}
  }

  lemma AttemptSparesResults(d: Db, s: Step, x: ExecId)
    requires AttemptStep(s) && x in d.results
    ensures x in Next(d, s).results && Next(d, s).results[x] == d.results[x]
  {
    hide Tick, RegisterWorker, Heartbeat, SubmitRequest, SubmitApply, ApproveAndSubmit, ApprovePlan, RevokePlan, ProposePlan;
    hide StartFailure, Recover, ClaimNext, Renew, Finish, Resume, CancelTask, SettleExpired, BeginApply, MarkJournal, CommitApply;
    hide FailApply, CrashApply, ResolvePlan, ClaimDelivery, SettleDelivery, Acknowledge, ResetSession, Assess;
    match s {
      case FinishStep(r, outcome, question, draftLive) => FinishWrites(d, r, outcome, question, draftLive);
      case StartFailureStep(t, owner, y) => FailureWrites(d, t, owner, y);
      case ClaimStep(w, slots, t, y) => ClaimFrame(d, w, slots, t, y);
      case ResumeStep(t, owner, w) => ResumeFrame(d, t, owner, w);
      case RenewStep(r) => RenewFrame(d, r);
      case RecoverStep => RecoverFrame(d);
    }
  }

  predicate DeliveryStep(s: Step) { s.ClaimDeliveryStep? || s.SettleDeliveryStep? || s.AcknowledgeStep? }

  lemma SenderMovesExactly(d: Db, s: Step, x: ExecId, b: Delivery)
    requires DeliveryStep(s) && x in d.results && b != d.results[x].delivery
    ensures x in Next(d, s).results && Next(d, s).results[x] == d.results[x].(delivery := Next(d, s).results[x].delivery)
    ensures Next(d, s).results[x].delivery == b <==> DeliveryCause(d, s, x, b)
  {
    hide Tick, RegisterWorker, Heartbeat, SubmitRequest, SubmitApply, ApproveAndSubmit, ApprovePlan, RevokePlan, ProposePlan;
    hide StartFailure, Recover, ClaimNext, Renew, Finish, Resume, CancelTask, SettleExpired, BeginApply, MarkJournal, CommitApply;
    hide FailApply, CrashApply, ResolvePlan, ClaimDelivery, SettleDelivery, Acknowledge, ResetSession, Assess;
    hide IsCurrent;
    match s {
      case ClaimDeliveryStep(t, owner, y, attempt) => ClaimMoves(d, t, owner, y, attempt, x);
      case SettleDeliveryStep(y, delivered) => SettleMoves(d, y, delivered, x);
      case AcknowledgeStep(t, owner) => AcknowledgeMoves(d, t, owner, x);
    }
  }

  // A result keeps its task and outcome, and in any transaction its delivery becomes another
  // exactly for the cause of that one.
  lemma DeliveryMovesExactly(d: Db, s: Step, x: ExecId, b: Delivery)
    requires x in d.results && b != d.results[x].delivery
    ensures x in Next(d, s).results && Next(d, s).results[x] == d.results[x].(delivery := Next(d, s).results[x].delivery)
    ensures Next(d, s).results[x].delivery == b <==> DeliveryCause(d, s, x, b)
  {
    hide Next;
    if DeliveryStep(s) {
      SenderMovesExactly(d, s, x, b);
    } else {
      OtherMoves(d, s, x);
    }
  }

  // A new result is unsent.
  lemma NewResultIsUnsent(d: Db, s: Step, x: ExecId)
    requires x !in d.results && x in Next(d, s).results
    ensures Next(d, s).results[x].delivery.Unsent?
  {
    if IntakeStep(s) { hide Next; IntakeFrame(d, s); }
    else if PlanReview(s) { hide Next; ReviewFrame(d, s); }
    else if ApplyStep(s) { hide Next; ApplyFrame(d, s); }
    else if AttemptStep(s) { NewAttemptResult(d, s, x); }
    else { hide Next; OtherFrame(d, s); }
  }

  lemma NewAttemptResult(d: Db, s: Step, x: ExecId)
    requires AttemptStep(s) && x !in d.results && x in Next(d, s).results
    ensures Next(d, s).results[x].delivery.Unsent?
  {
    hide Tick, RegisterWorker, Heartbeat, SubmitRequest, SubmitApply, ApproveAndSubmit, ApprovePlan, RevokePlan, ProposePlan;
    hide StartFailure, Recover, ClaimNext, Renew, Finish, Resume, CancelTask, SettleExpired, BeginApply, MarkJournal, CommitApply;
    hide FailApply, CrashApply, ResolvePlan, ClaimDelivery, SettleDelivery, Acknowledge, ResetSession, Assess;
    match s {
      case FinishStep(r, outcome, question, draftLive) => FinishWrites(d, r, outcome, question, draftLive);
      case StartFailureStep(t, owner, y) => FailureWrites(d, t, owner, y);
      case ClaimStep(w, slots, t, y) => ClaimFrame(d, w, slots, t, y);
      case ResumeStep(t, owner, w) => ResumeFrame(d, t, owner, w);
      case RenewStep(r) => RenewFrame(d, r);
      case RecoverStep => RecoverFrame(d);
    }
  }

  // ---------- over runs ----------

  ghost predicate InDelivery(d: Db, x: ExecId, b: Delivery) { x in d.results && d.results[x].delivery == b }

  // The last step that changed the delivery of `x`; it has been as it is ever since.
  lemma {:induction false} LastMove(states: seq<Db>, steps: seq<Step>, j: nat, x: ExecId, b: Delivery) returns (i: nat)
    requires Run(states, steps) && j < |states| && InDelivery(states[j], x, b) && !b.Unsent?
    ensures i < j && x in states[i].results && DeliveryCause(states[i], steps[i], x, b)
    ensures forall k :: i < k <= j ==> InDelivery(states[k], x, b)
    decreases j
  {
    hide Next, DeliveryCause;
    assert j > 0;
    assert Follows(states, steps, j - 1);
    var d, s := states[j - 1], steps[j - 1];
    if x !in d.results {
      NewResultIsUnsent(d, s, x);
      assert false;
    } else if d.results[x].delivery == b {
      i := LastMove(states, steps, j - 1, x, b);
    } else {
      DeliveryMovesExactly(d, s, x, b);
      i := j - 1;
    }
  }

  // A delivered result was sent by somebody who claimed it while it was current, and the sender
  // reported success; one whose delivery is uncertain was claimed too, and its sender reported
  // failure. Nothing else happened to its delivery.
  lemma SettledWasReported(states: seq<Db>, steps: seq<Step>, j: nat, x: ExecId) returns (c: nat, s: nat)
    requires Run(states, steps) && j < |states| && x in states[j].results
    requires states[j].results[x].delivery.Delivered? || states[j].results[x].delivery.SendUncertain?
    ensures c < s < j && steps[s] == SettleDeliveryStep(x, states[j].results[x].delivery.Delivered?)
    ensures steps[c].ClaimDeliveryStep? && IsCurrent(states[c], steps[c].t, steps[c].owner, x, steps[c].attempt)
    ensures InDelivery(states[c], x, Unsent) && (forall k :: c < k <= s ==> InDelivery(states[k], x, Sending))
    ensures forall k :: s < k <= j ==> InDelivery(states[k], x, states[j].results[x].delivery)
  {
    s := LastMove(states, steps, j, x, states[j].results[x].delivery);
    c := LastMove(states, steps, s, x, Sending);
  }
}
