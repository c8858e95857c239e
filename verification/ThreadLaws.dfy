// What every transaction does to a conversation, exactly, and how long a question stays pending.
module ThreadLaws {
  import opened Options
  import opened FilePlans
  import opened LedgerTypes
  import opened Transactions
  import opened LedgerInvariants
  import opened LedgerProofs
  import opened Protocol
  import opened Frames
  import opened IntakeLaws

  // ---------- what a step is for a conversation ----------

  // The request is admitted and joins conversation `k`.
  ghost predicate OpensTurn(d: Db, s: Step, k: SessionKey) {
    && s.SubmitStep? && s.intake.task !in d.tasks && s.intake.task in Next(d, s).tasks
    && s.intake.conversation == Some(k.conversation) && s.intake.owner == k.owner && s.intake.workspace == k.workspace
  }

  // The turn belongs to the conversation as it was last reset, and none came after it.
  predicate IsLast(d: Db, t: TaskId, k: SessionKey) {
    && t in d.turns && d.turns[t].session == k && k in d.sessions && d.turns[t].generation == d.sessions[k].generation
    && forall u | u in d.turns && d.turns[u].session == k && d.turns[u].generation == d.turns[t].generation :: d.turns[u].sequence <= d.turns[t].sequence
  }

  // The step saves the result of attempt `s.r.exec`.
  ghost predicate Saves(d: Db, s: Step) { s.FinishStep? && s.r.exec !in d.results && s.r.exec in Next(d, s).results }

  // The last turn of the conversation gets a result.
  ghost predicate AnswersLast(d: Db, s: Step, k: SessionKey) { s.FinishStep? && IsLast(d, s.r.task, k) && Saves(d, s) }

  // Its result is a success whose reply is a question.
  ghost predicate Asks(d: Db, s: Step)
    requires Saves(d, s)
  {
    Next(d, s).results[s.r.exec].outcome.OutSucceeded? && s.question
  }

  lemma LastIsNumbered(d: Db, t: TaskId)
    requires Inv(d) && LiveTurn(d, t)
    ensures IsLast(d, t, d.turns[t].session) <==> d.turns[t].sequence + 1 == d.sessions[d.turns[t].session].next
  {
    var k := d.turns[t].session;
    var s := d.sessions[k];
    assert TurnRow(d, t) && SessionRow(d, k);
    if IsLast(d, t, k) {
      assert Filled(d.turns, k, s.generation, s.next - 1);
    } else {
      var u :| u in d.turns && d.turns[u].session == k && d.turns[u].generation == d.turns[t].generation && d.turns[u].sequence > d.turns[t].sequence;
      assert TurnRow(d, u);
    }
  }

  // ---------- commits ----------

  ghost predicate AnsweredRows(d: Db, e: Db, r: Record, question: bool)
    requires r.exec in e.results
  {
    && e.turns == (if LiveTurn(d, r.task) then d.turns[r.task := d.turns[r.task].(question := question, completed := Some(r.exec))] else d.turns)
    && e.sessions == (if LiveTurn(d, r.task) && d.turns[r.task].sequence + 1 == d.sessions[d.turns[r.task].session].next
                      then d.sessions[d.turns[r.task].session := d.sessions[d.turns[r.task].session].(
                             pending := if e.results[r.exec].outcome.OutSucceeded? && question then Some((r.task, r.exec)) else None)]
                      else d.sessions)
  }

  lemma CommitAnswers(d: Db, r: Record, outcome: Outcome, question: bool, draft: bool)
    ensures var e := Finish(d, r, outcome, question, draft);
      if r.exec !in d.results && r.exec in e.results then AnsweredRows(d, e, r, question)
      else e.turns == d.turns && e.sessions == d.sessions
  {
    hide Unresolved, LivePlan;
    if FinishCommits(d, r, outcome, draft) {
      hide Committed;
      CommittedRows(d, r, Committed(d, r, outcome, draft), question);
      hide Commit, CompleteTurn, AnsweredRows;
    }
  }

  lemma CommittedRows(d: Db, r: Record, o: Outcome, question: bool)
    requires r.task in d.tasks && r.exec in d.execs && r.task in d.claims
    ensures var e := CompleteTurn(Commit(d, r, o), r.task, r.exec, o, question); r.exec in e.results && AnsweredRows(d, e, r, question)
  {
    var c := Commit(d, r, o);
    assert c.turns == d.turns && c.sessions == d.sessions && r.exec in c.results && c.results[r.exec].outcome == o;
    hide Commit;
    if LiveTurn(d, r.task) {}
  }

  // ---------- one step ----------

  // The conversation after the step.
  ghost function SessionAfter(d: Db, s: Step, k: SessionKey): Option<Session> {
    var before := if k in d.sessions then d.sessions[k] else Session(1, 1, None);
    if s == ResetStep(k) then Some(Session(before.generation + 1, 1, None))
    else if OpensTurn(d, s, k) then Some(Session(before.generation, before.next + 1, None))
    else if k !in d.sessions then None
    else if AnswersLast(d, s, k) then Some(before.(pending := if Asks(d, s) then Some((s.r.task, s.r.exec)) else None))
    else Some(before)
  }

  ghost predicate SessionIs(e: Db, k: SessionKey, s: Option<Session>) {
    if k in e.sessions then s == Some(e.sessions[k]) else s == None
  }

  // A new turn clears the question, and so does a reset, which starts a new generation; a result
  // of the last turn leaves its own question or none; nothing else touches the conversation.
  lemma SessionMovesExactly(d: Db, s: Step, k: SessionKey)
    requires Inv(d)
    ensures SessionIs(Next(d, s), k, SessionAfter(d, s, k))
  {
    if s.SubmitStep? { SubmitMovesSession(d, s, k); }
    else if s.FinishStep? { FinishMovesSession(d, s, k); }
    else if s.ResetStep? {}
    else { OthersSpareSession(d, s); hide Next; }
  }

  lemma SubmittedSession(d: Db, i: Intake, k: SessionKey)
    ensures var e := SubmitRequest(d, i);
      var joins := i.task !in d.tasks && i.task in e.tasks && i.conversation == Some(k.conversation) && i.owner == k.owner && i.workspace == k.workspace;
      var before := if k in d.sessions then d.sessions[k] else Session(1, 1, None);
      SessionIs(e, k, if joins then Some(Session(before.generation, before.next + 1, None)) else if k in d.sessions then Some(before) else None)
  {
    if i.task !in d.tasks { SubmitExactly(d, i); }
    assert i.task in d.tasks ==> SubmitRequest(d, i) == d;
    hide SubmitRequest, FreshRow, Reporting, NewMessage;
  }

  lemma SubmitMovesSession(d: Db, s: Step, k: SessionKey)
    requires s.SubmitStep?
    ensures SessionIs(Next(d, s), k, SessionAfter(d, s, k))
  {
    hide Tick, RegisterWorker, Heartbeat, SubmitRequest, SubmitApply, ApproveAndSubmit, ApprovePlan, RevokePlan, ProposePlan;
    hide StartFailure, Recover, ClaimNext, Renew, Finish, Resume, CancelTask, SettleExpired, BeginApply, MarkJournal, CommitApply;
    hide FailApply, CrashApply, ResolvePlan, ClaimDelivery, SettleDelivery, Acknowledge, ResetSession, Assess;
    SubmittedSession(d, s.intake, k);
  }

  lemma FinishedSession(d: Db, r: Record, outcome: Outcome, question: bool, draft: bool, k: SessionKey)
    requires Inv(d)
    ensures var e := Finish(d, r, outcome, question, draft);
      SessionIs(e, k,
        if k !in d.sessions then None
        else if r.exec !in d.results && r.exec in e.results && IsLast(d, r.task, k)
        then Some(d.sessions[k].(pending := if e.results[r.exec].outcome.OutSucceeded? && question then Some((r.task, r.exec)) else None))
        else Some(d.sessions[k]))
  {
    CommitAnswers(d, r, outcome, question, draft);
    if LiveTurn(d, r.task) { LastIsNumbered(d, r.task); }
    assert IsLast(d, r.task, k) ==> LiveTurn(d, r.task) && d.turns[r.task].session == k;
    hide Finish, Inv, IsLast;
  }

  lemma FinishMovesSession(d: Db, s: Step, k: SessionKey)
    requires Inv(d) && s.FinishStep?
    ensures SessionIs(Next(d, s), k, SessionAfter(d, s, k))
  {
    hide Tick, RegisterWorker, Heartbeat, SubmitRequest, SubmitApply, ApproveAndSubmit, ApprovePlan, RevokePlan, ProposePlan;
    hide StartFailure, Recover, ClaimNext, Renew, Finish, Resume, CancelTask, SettleExpired, BeginApply, MarkJournal, CommitApply;
    hide FailApply, CrashApply, ResolvePlan, ClaimDelivery, SettleDelivery, Acknowledge, ResetSession, Assess;
    hide Inv, IsLast;
    FinishedSession(d, s.r, s.outcome, s.question, s.draftLive, k);
    assert IsLast(d, s.r.task, k) ==> k in d.sessions by { LastIsKnown(d, s.r.task, k); }
  }

  lemma LastIsKnown(d: Db, t: TaskId, k: SessionKey)
    ensures IsLast(d, t, k) ==> k in d.sessions
  {
  }

  lemma OthersSpareSession(d: Db, s: Step)
    requires !s.SubmitStep? && !s.FinishStep? && !s.ResetStep?
    ensures Next(d, s).sessions == d.sessions && Next(d, s).turns == d.turns
  {
    hide Next;
    if IntakeStep(s) { IntakeSparesSession(d, s); }
    else if PlanReview(s) { ReviewFrame(d, s); }
    else if ApplyStep(s) { ApplyFrame(d, s); }
    else if AttemptStep(s) { AttemptSparesSession(d, s); }
    else { OtherFrame(d, s); }
  }

  lemma IntakeSparesSession(d: Db, s: Step)
    requires IntakeStep(s) && !s.SubmitStep? && !s.ResetStep?
    ensures Next(d, s).sessions == d.sessions && Next(d, s).turns == d.turns
  {
    hide Tick, RegisterWorker, Heartbeat, SubmitRequest, SubmitApply, ApproveAndSubmit, ApprovePlan, RevokePlan, ProposePlan;
    hide StartFailure, Recover, ClaimNext, Renew, Finish, Resume, CancelTask, SettleExpired, BeginApply, MarkJournal, CommitApply;
    hide FailApply, CrashApply, ResolvePlan, ClaimDelivery, SettleDelivery, Acknowledge, ResetSession, Assess;
    match s {
      case SubmitApplyStep(i, p) => SubmitApplyFrame(d, i, p);
      case ApproveAndSubmitStep(i, p, reviewed, draft) => ApproveAndSubmitFrame(d, i, p, reviewed, draft);
      case AssessStep(t, priority) => AssessFrame(d, t, priority);
    }
  }

  lemma AttemptSparesSession(d: Db, s: Step)
    requires AttemptStep(s) && !s.FinishStep?
    ensures Next(d, s).sessions == d.sessions && Next(d, s).turns == d.turns
  {
    hide Tick, RegisterWorker, Heartbeat, SubmitRequest, SubmitApply, ApproveAndSubmit, ApprovePlan, RevokePlan, ProposePlan;
    hide StartFailure, Recover, ClaimNext, Renew, Finish, Resume, CancelTask, SettleExpired, BeginApply, MarkJournal, CommitApply;
    hide FailApply, CrashApply, ResolvePlan, ClaimDelivery, SettleDelivery, Acknowledge, ResetSession, Assess;
    match s {
      case StartFailureStep(t, owner, x) => StartFailureFrame(d, t, owner, x);
      case RecoverStep => RecoverFrame(d);
      case ClaimStep(w, slots, t, x) => ClaimFrame(d, w, slots, t, x);
      case RenewStep(r) => RenewFrame(d, r);
      case ResumeStep(t, owner, w) => ResumeFrame(d, t, owner, w);
    }
  }

  // A turn is bound once, by the admission of its request; afterwards only a result of it while
  // its generation is live changes what it says of its answer.
  lemma TurnMovesExactly(d: Db, s: Step, t: TaskId)
    requires Inv(d) && t in d.turns
    ensures t in Next(d, s).turns && Next(d, s).turns[t] ==
      if s.FinishStep? && s.r.task == t && LiveTurn(d, t) && Saves(d, s) then d.turns[t].(question := s.question, completed := Some(s.r.exec)) else d.turns[t]
  {
    if s.FinishStep? { CommitAnswers(d, s.r, s.outcome, s.question, s.draftLive); hide Finish; }
    else if s.SubmitStep? { SubmitSparesTurn(d, s.intake, t); hide SubmitRequest; }
    else if s.ResetStep? {}
    else { OthersSpareSession(d, s); hide Next; }
  }

  lemma SubmitSparesTurn(d: Db, i: Intake, t: TaskId)
    requires Inv(d) && t in d.turns
    ensures t in SubmitRequest(d, i).turns && SubmitRequest(d, i).turns[t] == d.turns[t]
  {
    assert TurnRow(d, t);
    hide Inv;
    if i.task !in d.tasks { SubmitExactly(d, i); }
    assert i.task in d.tasks ==> SubmitRequest(d, i) == d;
    hide SubmitRequest;
  }

  // ---------- over runs ----------

  // The step may change which question is pending in `k`.
  ghost predicate Concerns(d: Db, s: Step, k: SessionKey) { s == ResetStep(k) || OpensTurn(d, s, k) || AnswersLast(d, s, k) }

  ghost predicate Unconcerned(states: seq<Db>, steps: seq<Step>, n: nat, k: SessionKey)
    requires n < |states| && n < |steps|
  {
    !Concerns(states[n], steps[n], k)
  }

  // Between such steps the conversation is as it was.
  lemma {:induction false} ConversationStays(states: seq<Db>, steps: seq<Step>, i: nat, j: nat, k: SessionKey)
    requires Run(states, steps) && i <= j < |states| && k in states[i].sessions
    requires forall n: nat | i <= n < j :: Unconcerned(states, steps, n, k)
    ensures k in states[j].sessions && states[j].sessions[k] == states[i].sessions[k]
    decreases j
  {
    hide Next, Inv, Concerns;
    if i < j {
      ConversationStays(states, steps, i, j - 1, k);
      Reachable(states, steps, j - 1);
      assert Follows(states, steps, j - 1) && Unconcerned(states, steps, j - 1, k);
      SessionMovesExactly(states[j - 1], steps[j - 1], k);
      UnconcernedStays(states[j - 1], steps[j - 1], k);
    }
  }

  lemma UnconcernedStays(d: Db, s: Step, k: SessionKey)
    requires k in d.sessions && !Concerns(d, s, k)
    ensures SessionAfter(d, s, k) == Some(d.sessions[k])
  {
    hide Next;
  }

  // A success of the last turn whose reply is a question makes it pending, with that turn and
  // attempt, until the next turn, a reset, or a further result of that turn.
  lemma QuestionStaysPending(states: seq<Db>, steps: seq<Step>, i: nat, j: nat, k: SessionKey)
    requires Run(states, steps) && i < j < |states| && AnswersLast(states[i], steps[i], k) && Asks(states[i], steps[i])
    requires forall n: nat | i < n < j :: Unconcerned(states, steps, n, k)
    ensures k in states[j].sessions && states[j].sessions[k].pending == Some((steps[i].r.task, steps[i].r.exec))
  {
    Reachable(states, steps, i);
    assert Follows(states, steps, i);
    SessionMovesExactly(states[i], steps[i], k);
    assert SessionAfter(states[i], steps[i], k).Some? && k in states[i + 1].sessions;
    hide Next, Inv, Unconcerned;
    ConversationStays(states, steps, i + 1, j, k);
  }

  // A pending question was left by such a success, and nothing of the kind happened since.
  lemma {:induction false} PendingWasAsked(states: seq<Db>, steps: seq<Step>, j: nat, k: SessionKey) returns (i: nat)
    requires Run(states, steps) && j < |states| && k in states[j].sessions && states[j].sessions[k].pending.Some?
    ensures i < j && AnswersLast(states[i], steps[i], k) && Asks(states[i], steps[i])
    ensures states[j].sessions[k].pending == Some((steps[i].r.task, steps[i].r.exec))
    ensures forall n: nat | i < n < j :: Unconcerned(states, steps, n, k)
    decreases j
  {
    hide Next, Inv;
    assert j > 0;
    Reachable(states, steps, j - 1);
    assert Follows(states, steps, j - 1);
    SessionMovesExactly(states[j - 1], steps[j - 1], k);
    if Concerns(states[j - 1], steps[j - 1], k) {
      i := j - 1;
    } else {
      i := PendingWasAsked(states, steps, j - 1, k);
    }
  }
}
