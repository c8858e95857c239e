// What the claim queue guarantees: an insert that never conflicts, progress, a bounded
// number of claims, and exactly when a claimed slot is lost for good.
module Scheduling {
  import opened Options
  import opened FilePlans
  import opened LedgerTypes
  import opened Transactions
  import opened LedgerInvariants
  import opened LedgerProofs
  import opened CalmProofs
  import opened StepProofs
  import opened Protocol
  import opened Frames
  import opened Effects

  // ---------- claims and attempts ----------

  // A running or stopping task holds an unreleased claim on its current attempt, and every
  // unreleased claim is on a running or stopping attempt that is its task's current one.
  lemma ClaimsMatchAttempts(states: seq<Db>, steps: seq<Step>, i: nat, t: TaskId)
    requires Run(states, steps) && i < |states|
    ensures var d := states[i];
      && (t in d.tasks && ActiveTask(d.tasks[t].status) ==> OpenClaim(d, t))
      && (OpenClaim(d, t) ==>
            && t in d.tasks && d.tasks[t].current == Some(d.claims[t].exec)
            && d.claims[t].exec in d.execs && d.execs[d.claims[t].exec].task == t && ActiveExec(d.execs[d.claims[t].exec].status)
            && (ActiveTask(d.tasks[t].status) || Leaked(d, t)))
  {
    Reachable(states, steps, i);
    assert TaskRow(states[i], t) && ClaimRow(states[i], t);
  }

  // ---------- progress ----------

  // A queued task owns no unreleased claim, so with a fresh attempt identifier the claim's
  // insert never meets an existing row.
  lemma ClaimNeverConflicts(d: Db, w: WorkerId, slots: int, t: TaskId, e: ExecId)
    requires Inv(d) && ClaimAnswers(d, w, slots, Some(t)) && e !in d.execs
    ensures ClaimInserts(d, t, e) && ClaimNext(d, w, slots, t, e) == StartAttempt(d, t, e, w)
  {
    assert ClaimRow(d, t);
  }

  // Turn `u` comes before turn `t` of the same conversation.
  predicate ComesFirst(d: Db, u: TaskId, t: TaskId) { SameThread(d, t, u) && d.turns[u].sequence < d.turns[t].sequence }

  // Among the ready turns of a conversation the first one is free to start: a ready turn can be
  // claimed exactly when no ready turn comes before it, and otherwise an earlier one can.
  lemma {:induction false} FirstTurnIsFree(d: Db, w: WorkerId, t: TaskId)
    requires Inv(d) && OpenClaims(d) == {} && Candidate(d, t, w)
    requires forall u | u in d.tasks && ReadyInQueue(d, u) :: d.tasks[u].worker == w
    ensures Claimable(d, t, w) <==> forall u | u in d.tasks && ComesFirst(d, u, t) :: !ReadyInQueue(d, u)
    ensures exists u :: Claimable(d, u, w) && (u == t || ComesFirst(d, u, t))
    decreases if t in d.turns then d.turns[t].sequence else 0
  {
    forall u | u in d.claims ensures d.claims[u].released {
      assert !d.claims[u].released ==> u in OpenClaims(d);
    }
    if HasEarlierWork(d, t) {
      var u :| u in d.turns && SameThread(d, t, u) && u in d.tasks
        && (ActiveTask(d.tasks[u].status) || (d.turns[u].sequence < d.turns[t].sequence && ReadyInQueue(d, u)));
      assert TaskRow(d, u);
      FirstTurnIsFree(d, w, u);
    } else {
      assert Claimable(d, t, w);
    }
  }

  ghost predicate IsFirst(d: Db, s: set<TaskId>, t: TaskId) {
    t in s && t in d.tasks && forall u | u in s && u in d.tasks && u != t :: Before(d.tasks[t], d.tasks[u])
  }

  // Row numbers differ, so the queue order always has a first element.
  lemma {:induction false} QueueHasFirst(d: Db, s: set<TaskId>) returns (t: TaskId)
    requires Inv(d) && s != {} && forall u | u in s :: u in d.tasks
    ensures IsFirst(d, s, t)
    decreases |s|
  {
    t :| t in s;
    var rest := s - {t};
    assert forall u | u in s && u != t :: u in rest;
    if rest != {} {
      var u := QueueHasFirst(d, rest);
      assert ApartTasks(d, t, u);
      if Before(d.tasks[t], d.tasks[u]) {
        forall v | v in s && v != t ensures Before(d.tasks[t], d.tasks[v]) {
          assert v in rest;
        }
      } else {
        assert Before(d.tasks[u], d.tasks[t]);
        forall v | v in s && v != u ensures Before(d.tasks[u], d.tasks[v]) {
          assert v != t ==> v in rest;
        }
        t := u;
      }
    }
  }

  // With nothing claimed, a free slot and every ready task assigned to this worker, the claim
  // finds no task if and only if none is ready.
  lemma ClaimProgress(d: Db, w: WorkerId, slots: int)
    requires Inv(d) && OpenClaims(d) == {} && slots >= 1
    requires forall t | t in d.tasks && ReadyInQueue(d, t) :: d.tasks[t].worker == w
    ensures ClaimAnswers(d, w, slots, None) <==> forall t | t in d.tasks :: !Candidate(d, t, w)
    ensures (exists t :: Candidate(d, t, w)) <==> (exists t :: ClaimAnswers(d, w, slots, Some(t)))
  {
    if t :| Candidate(d, t, w) {
      FirstTurnIsFree(d, w, t);
      var s := set u | u in d.tasks && Claimable(d, u, w);
      var v :| Claimable(d, v, w);
      assert v in s;
      var first := QueueHasFirst(d, s);
      assert Claimable(d, first, w);
      forall u | u in d.tasks && u != first && Claimable(d, u, w) ensures Before(d.tasks[first], d.tasks[u]) { assert u in s; }
      assert ClaimAnswers(d, w, slots, Some(first));
    }
  }

  // ---------- the number of claims ----------

  // Only `claim` opens a claim: the one of the task it starts, below the slot count.
  lemma OnlyClaimOpens(d: Db, s: Step)
    ensures !s.ClaimStep? ==> OpenClaims(Next(d, s)) <= OpenClaims(d)
    ensures s.ClaimStep? && Next(d, s) != d ==> |OpenClaims(d)| < s.slots && OpenClaims(Next(d, s)) == OpenClaims(d) + {s.t}
  {
    hide ClaimNext;
    if IntakeStep(s) { IntakeFrame(d, s); }
    else if PlanReview(s) { ReviewFrame(d, s); }
    else if s.ClaimStep? { ClaimFrame(d, s.w, s.slots, s.t, s.x); }
    else if AttemptStep(s) { AttemptFrame(d, s); }
    else if ApplyStep(s) { ApplyFrame(d, s); }
    else { OtherFrame(d, s); }
  }

  // The largest slot count any claim of the run has used.
  ghost function LargestSlots(steps: seq<Step>): (most: int)
    ensures most >= 0
  {
    if steps == [] then 0
    else
      var rest, last := LargestSlots(steps[..|steps| - 1]), steps[|steps| - 1];
      if last.ClaimStep? && last.slots > rest then last.slots else rest
  }

  // Unreleased claims never outnumber the largest slot count used so far.
  lemma {:induction false} ClaimsWithinSlots(states: seq<Db>, steps: seq<Step>, i: nat)
    requires Run(states, steps) && i < |states|
    ensures |OpenClaims(states[i])| <= LargestSlots(steps[..i])
  {
    if i == 0 {
      assert OpenClaims(EMPTY) == {};
    } else {
      var d, s, e := states[i - 1], steps[i - 1], states[i];
      ClaimsWithinSlots(states, steps, i - 1);
      assert Follows(states, steps, i - 1);
      assert steps[..i][..i - 1] == steps[..i - 1];
      OnlyClaimOpens(d, s);
      if OpenClaims(e) <= OpenClaims(d) { Smaller(OpenClaims(e), OpenClaims(d)); }
    }
  }

  lemma Smaller<T>(a: set<T>, b: set<T>)
    requires a <= b
    ensures |a| <= |b|
  {
    assert b == a + (b - a);
  }
}
