// The fenced commit, the bounded number of attempts and delivery at most once, over runs.
module Fencing {
  import opened Options
  import opened FilePlans
  import opened LedgerTypes
  import opened Transactions
  import opened LedgerInvariants
  import opened LedgerProofs
  import opened CreateProofs
  import opened Protocol
  import opened Frames

  // ---------- who writes a result ----------

  // The transaction writes a new result for attempt `x`.
  ghost predicate Writes(d: Db, s: Step, x: ExecId) { x !in d.results && x in Next(d, s).results }

  // A new result comes from the worker that holds the unreleased, unexpired claim of the
  // task's current attempt, or records that no worker could be started for a held task.
  lemma WritersAreFenced(d: Db, s: Step, x: ExecId)
    ensures Writes(d, s, x) ==>
      || (s.FinishStep? && s.r.exec == x && CanFinish(d, s.r)
          && LiveClaim(d, s.r.task) && d.claims[s.r.task] == Claim(s.r.worker, d.claims[s.r.task].owner, x, d.claims[s.r.task].expires, false)
          && d.tasks[s.r.task].current == Some(x))
      || (s.StartFailureStep? && s.x == x && x !in d.execs && s.t in d.tasks && d.tasks[s.t].current.None?)
  {
    if Writes(d, s, x) {
      if IntakeStep(s) { IntakeFrame(d, s); }
      else if PlanReview(s) { ReviewFrame(d, s); }
      else if ApplyStep(s) { ApplyFrame(d, s); }
      else if AttemptStep(s) { AttemptWrites(d, s, x); }
      else { OtherFrame(d, s); }
    }
  }

  lemma AttemptWrites(d: Db, s: Step, x: ExecId)
    requires AttemptStep(s) && Writes(d, s, x)
    ensures || (s.FinishStep? && s.r.exec == x && CanFinish(d, s.r))
            || (s.StartFailureStep? && s.x == x && CanRecordFailure(d, s.t, s.owner, x))
  {
    hide ClaimNext, Resume, Renew, Unresolved, LivePlan;
    match s {
      case FinishStep(r, outcome, question, draftLive) => if FinishCommits(d, r, outcome, draftLive) {}
      case StartFailureStep(t, owner, y) => if CanRecordFailure(d, t, owner, y) {}
      case ClaimStep(w, slots, t, y) => ClaimFrame(d, w, slots, t, y);
      case ResumeStep(t, owner, w) => ResumeFrame(d, t, owner, w);
      case RenewStep(r) => RenewFrame(d, r);
      case RecoverStep => RecoverFrame(d);
    }
  }

  // ---------- what a commit means for the rest of the run ----------

  // A saved result keeps its task and outcome for ever.
  lemma ResultIsFinal(states: seq<Db>, steps: seq<Step>, i: nat, j: nat, x: ExecId)
    requires Run(states, steps) && i <= j < |states| && x in states[i].results
    ensures x in states[j].results
      && states[j].results[x] == states[i].results[x].(delivery := states[j].results[x].delivery)
  {
    Later(states, steps, i, j);
    assert ResultMoves(states[i], states[j], x);
  }

  // At most one step of a run writes the result of an attempt.
  lemma OneResultEach(states: seq<Db>, steps: seq<Step>, i: nat, j: nat, x: ExecId)
    requires Run(states, steps) && i < |steps| && j < |steps|
    requires Writes(states[i], steps[i], x) && Writes(states[j], steps[j], x)
    ensures i == j
  {
    assert Follows(states, steps, i) && Follows(states, steps, j);
    if i < j { ResultIsFinal(states, steps, i + 1, j, x); }
    if j < i { ResultIsFinal(states, steps, j + 1, i, x); }
  }

  // The attempt was recovered, closed or replaced, or its claim was released.
  ghost predicate Superseded(d: Db, x: ExecId) {
    && x in d.execs
    && (|| !ActiveExec(d.execs[x].status)
        || !OpenClaim(d, d.execs[x].task)
        || d.claims[d.execs[x].task].exec != x
        || (d.execs[x].task in d.tasks && d.tasks[d.execs[x].task].current != Some(x)))
  }

  lemma SupersededStays(d: Db, e: Db, x: ExecId)
    requires Inv(d) && Evolves(d, e) && Superseded(d, x)
    ensures x in e.execs && !ActiveExec(e.execs[x].status)
  {
    assert ExecRow(d, x) && ClaimRow(d, d.execs[x].task) && ExecMoves(d, e, x);
  }

  // From then on, a commit or a renewal by its worker changes nothing.
  lemma LateCommitChangesNothing(states: seq<Db>, steps: seq<Step>, i: nat, j: nat, r: Record, outcome: Outcome, question: bool, draftLive: bool)
    requires Run(states, steps) && i <= j < |states| && Superseded(states[i], r.exec)
    ensures Finish(states[j], r, outcome, question, draftLive) == states[j] && Renew(states[j], r) == states[j]
  {
    Reachable(states, steps, i);
    Later(states, steps, i, j);
    SupersededStays(states[i], states[j], r.exec);
    Reachable(states, steps, j);
    assert ClaimRow(states[j], r.task) && ExecRow(states[j], r.exec);
  }

  // Terminal attempts never change, and an attempt that was once asked to stop ends
  // cancelled or lost, with a cancelled or blocked result.
  lemma AttemptsEnd(states: seq<Db>, steps: seq<Step>, i: nat, j: nat, x: ExecId)
    requires Run(states, steps) && i <= j < |states| && x in states[i].execs
    ensures x in states[j].execs
    ensures TerminalExec(states[i].execs[x].status) ==> states[j].execs[x] == states[i].execs[x]
    ensures states[i].execs[x].status.ExecCancelling? ==>
      var s := states[j].execs[x].status; s.ExecCancelling? || s.ExecCancelled? || s.ExecLost?
    ensures states[i].execs[x].status.ExecCancelling? && x in states[j].results ==>
      var o := states[j].results[x].outcome; o.OutCancelled? || o.OutBlocked?
  {
    Reachable(states, steps, i);
    Later(states, steps, i, j);
    assert ExecMoves(states[i], states[j], x) && ResultMoves(states[i], states[j], x) && ResultRow(states[i], x);
  }

  // The attempts started by `claim` are counted exactly, and there are never more than three.
  lemma AttemptsAreBounded(states: seq<Db>, steps: seq<Step>, i: nat, t: TaskId)
    requires Run(states, steps) && i < |states| && t in states[i].tasks
    ensures |AttemptsOf(states[i].execs, t)| == states[i].tasks[t].attempts <= MAX_ATTEMPTS
  {
    Reachable(states, steps, i);
    assert TaskRow(states[i], t) && CountRow(states[i], t);
  }

  // ---------- delivery ----------

  // The step wins the right to send the result of attempt `x`.
  ghost predicate WinsSend(d: Db, s: Step, x: ExecId) {
    s.ClaimDeliveryStep? && s.x == x && CanSend(d, s.t, s.owner, x, s.attempt)
  }

  // Whatever the senders, at most one claim of a result for sending ever succeeds.
  lemma SentAtMostOnce(states: seq<Db>, steps: seq<Step>, i: nat, j: nat, x: ExecId)
    requires Run(states, steps) && i < j < |steps| && WinsSend(states[i], steps[i], x)
    ensures !WinsSend(states[j], steps[j], x)
    ensures x in states[j].results && !states[j].results[x].delivery.Unsent?
  {
    assert Follows(states, steps, i);
    Later(states, steps, i + 1, j);
    assert ResultMoves(states[i + 1], states[j], x);
  }

  // Once another attempt is current, the earlier one's result is never claimed for sending.
  lemma OutdatedNeverSent(states: seq<Db>, steps: seq<Step>, i: nat, j: nat, x: ExecId, t: TaskId)
    requires Run(states, steps) && i <= j < |steps|
    requires x in states[i].execs && states[i].execs[x].task == t && t in states[i].tasks && states[i].tasks[t].current != Some(x)
    ensures !WinsSend(states[j], steps[j], x)
  {
    Later(states, steps, i, j);
    Reachable(states, steps, j);
    assert TaskMoves(states[i], states[j], t) && ExecMoves(states[i], states[j], x);
    if steps[j].ClaimDeliveryStep? { assert TaskRow(states[j], steps[j].t); }
  }

  // An acknowledged delivery survives every later step, a late settlement included.
  lemma AcknowledgedStays(states: seq<Db>, steps: seq<Step>, i: nat, j: nat, x: ExecId)
    requires Run(states, steps) && i <= j < |states|
    requires x in states[i].results && states[i].results[x].delivery.Acknowledged?
    ensures x in states[j].results && states[j].results[x] == states[i].results[x]
  {
    Later(states, steps, i, j);
    assert ResultMoves(states[i], states[j], x);
  }
}
