// A task is never declared cancelled while its file effects are still uncertain,
// except by closing a plan over queued drafts; the exact condition is proved.
module Effects {
  import opened Options
  import opened FilePlans
  import opened LedgerTypes
  import opened Transactions
  import opened LedgerInvariants
  import opened LedgerProofs
  import opened CalmProofs
  import opened StepProofs
  import opened CreateProofs

  // The step moves `c` into `cancelled` although its effects are unresolved afterwards.
  ghost predicate WronglyCancels(d: Db, e: Db, c: TaskId) {
    && c in d.tasks && c in e.tasks && !d.tasks[c].status.Cancelled? && e.tasks[c].status.Cancelled?
    && Unresolved(e, c, true)
  }

  // ---------- comparing the evidence of two states ----------

  // Family links and resolution evidence agree; every effect open in `e` was open in `d`,
  // except possibly those of the tasks in `cs`.
  ghost predicate NoNewEffects(d: Db, e: Db, cs: set<TaskId>) {
    && (forall t: TaskId {:trigger SameLinks(d, e, t)} :: SameLinks(d, e, t))
    && (forall x: ExecId {:trigger NoNewAttempt(d, e, x, cs)} :: NoNewAttempt(d, e, x, cs))
    && (forall p: PlanId {:trigger NoNewJournal(d, e, p, cs)} :: NoNewJournal(d, e, p, cs))
    && e.resolutions == d.resolutions
  }

  ghost predicate SameLinks(d: Db, e: Db, t: TaskId) {
    && (t in d.tasks <==> t in e.tasks)
    && (t in d.tasks ==> d.tasks[t].kind == e.tasks[t].kind && d.tasks[t].parent == e.tasks[t].parent)
  }

  ghost predicate NoNewAttempt(d: Db, e: Db, x: ExecId, cs: set<TaskId>) {
    x in e.execs ==>
      && x in d.execs && d.execs[x].task == e.execs[x].task
      && (e.execs[x].task !in cs ==>
            || e.execs[x].status == d.execs[x].status
            || (ActiveExec(e.execs[x].status) && ActiveExec(d.execs[x].status))
            || e.execs[x].status.ExecCancelled?)
  }

  ghost predicate NoNewJournal(d: Db, e: Db, p: PlanId, cs: set<TaskId>) {
    && (p in d.plans ==> p in e.plans && d.plans[p].task == e.plans[p].task
                         && (SettledPlan(d.plans[p].status) ==> SettledPlan(e.plans[p].status)))
    && (p in e.plans ==> p in d.plans && (e.plans[p].task !in cs && OpenJournal(e, p) ==> OpenJournal(d, p)))
  }

  lemma LostResolvedStays(d: Db, e: Db, cs: set<TaskId>, owner: TaskId, x: ExecId)
    requires NoNewEffects(d, e, cs) && LostResolved(d, owner, x)
    ensures LostResolved(e, owner, x)
  {
    var r :| r in d.resolutions && r.task == owner && x in r.execs && r.plan in d.plans
      && d.plans[r.plan].task == owner && SettledPlan(d.plans[r.plan].status);
    assert NoNewJournal(d, e, r.plan, cs);
  }

  lemma OpenEffectBack(d: Db, e: Db, cs: set<TaskId>, owner: TaskId, c: TaskId)
    requires NoNewEffects(d, e, cs) && OpenEffect(e, owner, c, true) && c !in cs
    ensures OpenEffect(d, owner, c, true)
  {
    if x :| x in e.execs && e.execs[x].task == c && OpenAttempt(e, owner, x, true) {
      assert NoNewAttempt(d, e, x, cs);
      if e.execs[x].status.ExecLost? && LostResolved(d, owner, x) { LostResolvedStays(d, e, cs, owner, x); }
      assert OpenAttempt(d, owner, x, true);
    } else {
      var p :| p in e.plans && e.plans[p].task == c && OpenJournal(e, p);
      assert NoNewJournal(d, e, p, cs);
    }
  }

  // Unresolved afterwards means unresolved before, for a task whose family avoids `cs`.
  lemma UnresolvedBack(d: Db, e: Db, cs: set<TaskId>, t: TaskId)
    requires NoNewEffects(d, e, cs) && t in e.tasks && Unresolved(e, t, true)
    requires forall c | c in e.tasks && InFamily(e, t, c) :: c !in cs
    ensures t in d.tasks && Unresolved(d, t, true)
  {
    assert SameLinks(d, e, t);
    var c :| c in e.tasks && InFamily(e, t, c) && OpenEffect(e, ResolutionOwner(e, t), c, true);
    assert SameLinks(d, e, c);
    OpenEffectBack(d, e, cs, ResolutionOwner(d, t), c);
    assert InFamily(d, t, c);
  }

  // ---------- a queued apply has no effects ----------

  lemma QueuedApplyIsClean(d: Db, c: TaskId)
    requires Inv(d) && c in d.tasks && d.tasks[c].kind.Apply? && d.tasks[c].status.Queued?
    ensures !Unresolved(d, c, true)
  {
    assert TaskRow(d, c) && CountRow(d, c);
    var owner := ResolutionOwner(d, c);
    assert owner != c;
    assert AttemptsOf(d.execs, c) == {};
    forall x | x in d.execs && d.execs[x].task == c ensures !OpenAttempt(d, owner, x, true) {
      assert ExecRow(d, x);
      assert x !in AttemptsOf(d.execs, c);
    }
    forall p | p in d.plans ensures d.plans[p].task != c { assert PlanRow(d, p); }
    forall k | k in d.tasks ensures !(InFamily(d, c, k) && OpenEffect(d, owner, k, true)) {}
  }

  // ---------- cancel, finish and resolve ----------

  lemma AskNeverWrong(d: Db, t: TaskId, c: TaskId)
    requires Inv(d) && t in d.tasks && Stoppable(d, t)
    requires var w := Withdraw(d, t); w.claims == d.claims && t in w.tasks && d.claims[t].exec in w.execs && w.execs[d.claims[t].exec].task == t
    ensures !WronglyCancels(d, AskToStop(Withdraw(d, t), t), c)
  {
    var w := Withdraw(d, t);
    var e := AskToStop(w, t);
    WithdrawMoves(d, t, c);
    AskAddsNothing(w, t);
    if c in e.tasks && c != t && c in RevokedChildren(d, t) && d.tasks[c].status.Queued? { WithdrawnIsClean(d, e, t, c); }
  }

  lemma CloseNeverWrong(d: Db, t: TaskId, c: TaskId)
    requires Inv(d) && t in d.tasks && t in Withdraw(d, t).tasks
    ensures !WronglyCancels(d, CloseTask(Withdraw(d, t), t, Unresolved(Withdraw(d, t), t, true)), c)
  {
    var w := Withdraw(d, t);
    var u := Unresolved(w, t, true);
    var e := CloseTask(w, t, u);
    WithdrawMoves(d, t, c);
    CloseAddsNothing(w, t, u);
    if c in e.tasks && c != t && c in RevokedChildren(d, t) && d.tasks[c].status.Queued? { WithdrawnIsClean(d, e, t, c); }
    if !u && Unresolved(e, t, true) { UnresolvedBack(w, e, {}, t); }
  }

  lemma CancelNeverWrong(d: Db, t: TaskId, owner: Owner, selected: bool, c: TaskId)
    requires Inv(d)
    ensures !WronglyCancels(d, CancelTask(d, t, owner, selected), c)
  {
    if CancelActs(d, t, owner, selected) {
      assert TaskRow(d, t) && ClaimRow(d, t);
      WithdrawSpares(d, t);
      if Stoppable(d, t) { AskNeverWrong(d, t, c); } else { CloseNeverWrong(d, t, c); }
    }
  }

  // Besides the task itself a cancellation can only declare cancelled the queued applies it revokes.
  lemma WithdrawMoves(d: Db, t: TaskId, c: TaskId)
    requires t in d.tasks
    ensures var w := Withdraw(d, t);
      && (c in d.tasks <==> c in w.tasks)
      && (c in d.tasks && w.tasks[c].status.Cancelled? && !d.tasks[c].status.Cancelled? ==>
            c in RevokedChildren(d, t) && d.tasks[c].status.Queued?)
  {
    assert Withdraw(d, t).tasks == StopChildren(d, RevokedChildren(d, t)).tasks;
  }

  lemma WithdrawnIsClean(d: Db, e: Db, t: TaskId, c: TaskId)
    requires Inv(d) && t in d.tasks && NoNewEffects(Withdraw(d, t), e, {t})
    requires c != t && c in RevokedChildren(d, t) && d.tasks[c].status.Queued? && c in e.tasks
    ensures !Unresolved(e, c, true)
  {
    var w := Withdraw(d, t);
    assert TaskRow(d, t) && TaskRow(d, c);
    WithdrawAddsNothing(d, t);
    if Unresolved(e, c, true) {
      assert SameLinks(d, w, c) && SameLinks(w, e, c);
      forall k | k in e.tasks && InFamily(e, c, k) ensures k !in {t} { assert SameLinks(d, w, k) && SameLinks(w, e, k); }
      UnresolvedBack(w, e, {t}, c);
      UnresolvedBack(d, w, {}, c);
      QueuedApplyIsClean(d, c);
    }
  }

  lemma AskAddsNothing(w: Db, t: TaskId)
    requires t in w.tasks && t in w.claims && w.claims[t].exec in w.execs && w.execs[w.claims[t].exec].task == t
    ensures NoNewEffects(w, AskToStop(w, t), {t})
  {
  }

  lemma CloseAddsNothing(w: Db, t: TaskId, uncertain: bool)
    requires t in w.tasks
    ensures NoNewEffects(w, CloseTask(w, t, uncertain), {t})
    ensures !uncertain ==> NoNewEffects(w, CloseTask(w, t, uncertain), {})
  {
  }

  lemma StopAddsNothing(d: Db, cs: set<TaskId>)
    ensures NoNewEffects(d, StopChildren(d, cs), {})
  {
  }

  lemma WithdrawAddsNothing(d: Db, t: TaskId)
    ensures NoNewEffects(d, Withdraw(d, t), {})
  {
    var s := StopChildren(d, RevokedChildren(d, t));
    StopAddsNothing(d, RevokedChildren(d, t));
    var w := RevokePlans(s, t);
    assert s.plans == d.plans && s.journal == d.journal;
    forall u: TaskId ensures SameLinks(d, w, u) { assert SameLinks(d, s, u); }
    forall x: ExecId ensures NoNewAttempt(d, w, x, {}) { assert NoNewAttempt(d, s, x, {}); }
  }

  // A cancelled commit: nobody in the family of the task that answers for it is uncertain.
  lemma CommittedClean(d: Db, r: Record, outcome: Outcome, draftLive: bool)
    requires Inv(d) && CanFinish(d, r) && Committed(d, r, outcome, draftLive).OutCancelled?
    ensures !Unresolved(SetExec(d, r.exec, ExecCancelled), r.task, true)
  {
    var d1 := SetExec(d, r.exec, ExecCancelled);
    var t := r.task;
    assert TaskRow(d, t);
    if d.tasks[t].kind.Apply? {
      var parent := EffectTask(d, t);
      assert PlanRow(d, d.tasks[t].kind.plan);
      assert ResolutionOwner(d1, t) == parent && InFamily(d1, parent, t) && ResolutionOwner(d1, parent) == parent;
      forall k | k in d1.tasks && InFamily(d1, t, k) ensures !OpenEffect(d1, parent, k, true) {}
    }
  }

  lemma CommitAddsNothing(d: Db, r: Record, question: bool)
    requires CanFinish(d, r)
    ensures NoNewEffects(SetExec(d, r.exec, ExecCancelled), CompleteTurn(Commit(d, r, OutCancelled), r.task, r.exec, OutCancelled, question), {})
  {
  }

  lemma FinishNeverWrong(d: Db, r: Record, outcome: Outcome, question: bool, draftLive: bool, c: TaskId)
    requires Inv(d)
    ensures !WronglyCancels(d, Finish(d, r, outcome, question, draftLive), c)
  {
    var e := Finish(d, r, outcome, question, draftLive);
    if WronglyCancels(d, e, c) {
      var o := Committed(d, r, outcome, draftLive);
      assert e.tasks == Commit(d, r, o).tasks;
      assert c == r.task && o.OutCancelled?;
      CommittedClean(d, r, outcome, draftLive);
      CommitAddsNothing(d, r, question);
      UnresolvedBack(SetExec(d, r.exec, ExecCancelled), e, {}, c);
    }
  }

  lemma ResolveNeverWrong(d: Db, p: PlanId, owner: Owner, complete: bool, c: TaskId)
    requires Inv(d)
    ensures !WronglyCancels(d, ResolvePlan(d, p, owner, complete), c)
  {
    var e := ResolvePlan(d, p, owner, complete);
    if WronglyCancels(d, e, c) {
      var d1 := RecordResolution(d, p, complete);
      assert e.tasks[c] == Verdict(d1, p, c, complete);
      VerdictAddsNothing(d1, p, complete);
      UnresolvedBack(d1, e, {}, c);
    }
  }

  lemma VerdictAddsNothing(d: Db, p: PlanId, complete: bool)
    requires p in d.plans && d.plans[p].task in d.tasks
    ensures NoNewEffects(d, PassVerdict(d, p, complete), {})
  {
    var e := PassVerdict(d, p, complete);
    forall u: TaskId ensures SameLinks(d, e, u) {
      if u in d.tasks { VerdictHasShape(d, p, complete, u); }
    }
  }

  // ---------- closing a plan ----------

  // A queued draft of the task whose own earlier attempts are still uncertain.
  ghost predicate UncertainDraft(d: Db, t: TaskId, c: TaskId) {
    c in d.tasks && d.tasks[c].parent == Some(t) && d.tasks[c].status.Queued? && Unresolved(d, c, true)
  }

  lemma SettleAttempt(d: Db, t: TaskId, uncertain: bool, x: ExecId)
    requires t in d.tasks
    ensures var e := SettleWith(d, t, uncertain);
      NoNewAttempt(d, e, x, if uncertain then {t} else {}) && NoNewAttempt(e, d, x, {t})
  {
  }

  lemma SettleAddsNothing(d: Db, t: TaskId, uncertain: bool)
    requires t in d.tasks
    ensures NoNewEffects(d, SettleWith(d, t, uncertain), if uncertain then {t} else {})
    ensures NoNewEffects(SettleWith(d, t, uncertain), d, {t})
  {
    var e := SettleWith(d, t, uncertain);
    forall u: TaskId ensures SameLinks(d, e, u) && SameLinks(e, d, u) {}
    forall x: ExecId ensures NoNewAttempt(d, e, x, if uncertain then {t} else {}) && NoNewAttempt(e, d, x, {t}) {
      SettleAttempt(d, t, uncertain, x);
    }
  }

  lemma ReviewsAddNothing(d: Db, t: TaskId)
    requires t in d.tasks
    ensures NoNewEffects(StopChildren(d, ChildrenOf(d, t)), SettleWith(d, t, false), {})
  {
  }

  // Parents are older than their children, so no draft answers for the task it came from.
  lemma DraftFamilyAvoidsParent(d: Db, t: TaskId, c: TaskId)
    requires Rows(d) && t in d.tasks && c in d.tasks && d.tasks[c].parent == Some(t)
    ensures forall k | k in d.tasks && InFamily(d, c, k) :: k != t
  {
    assert TaskRow(d, c) && TaskRow(d, t);
  }

  lemma SettledDraft(d: Db, t: TaskId, uncertain: bool, c: TaskId)
    requires Rows(d) && t in d.tasks && c in d.tasks && d.tasks[c].parent == Some(t)
    ensures Unresolved(SettleWith(d, t, uncertain), c, true) <==> Unresolved(d, c, true)
  {
    var e := SettleWith(d, t, uncertain);
    SettleAddsNothing(d, t, uncertain);
    DraftFamilyAvoidsParent(d, t, c);
    forall k | k in e.tasks && InFamily(e, c, k) ensures k != t { assert SameLinks(d, e, c) && SameLinks(d, e, k); }
    if Unresolved(e, c, true) { UnresolvedBack(d, e, if uncertain then {t} else {}, c); }
    if Unresolved(d, c, true) { UnresolvedBack(e, d, {t}, c); }
  }

  lemma SettleMoves(d: Db, t: TaskId, uncertain: bool, c: TaskId)
    requires t in d.tasks && TaskRow(d, t) && c in d.tasks && !d.tasks[c].status.Cancelled?
    ensures SettleWith(d, t, uncertain).tasks[c].status.Cancelled? <==>
      (if c == t then !uncertain else d.tasks[c].parent == Some(t) && d.tasks[c].status.Queued?)
  {
  }

  // Settling a closed plan declares a task wrongly cancelled if and only if some queued
  // draft of the plan's task has unresolved effects of its own.
  lemma SettleWrongExactly(d: Db, t: TaskId)
    requires Inv(d) && SettleActs(d, t) && !TerminalTask(d.tasks[t].status)
    ensures (exists c :: WronglyCancels(d, Settle(d, t), c)) <==> (exists c :: UncertainDraft(d, t, c))
  {
    var d1 := StopChildren(d, ChildrenOf(d, t));
    var u := Unresolved(d1, t, true);
    var e := SettleWith(d, t, u);
    assert e == Settle(d, t) && TaskRow(d, t);
    if c :| WronglyCancels(d, e, c) {
      SettleMoves(d, t, u, c);
      if c == t {
        ReviewsAddNothing(d, t);
        UnresolvedBack(d1, e, {}, t);
      } else {
        SettledDraft(d, t, u, c);
        assert UncertainDraft(d, t, c);
      }
    }
    if c :| UncertainDraft(d, t, c) {
      assert TaskRow(d, c);
      SettleMoves(d, t, u, c);
      SettledDraft(d, t, u, c);
      assert WronglyCancels(d, e, c);
    }
  }

  // No other plan of the task is still under review or being applied, no attempt of it is
  // live, and it has not ended: closing plan `p` settles the task.
  ghost predicate LastReview(d: Db, p: PlanId)
    requires p in d.plans
  {
    var t := d.plans[p].task;
    && t in d.tasks && !LiveClaim(d, t) && !TerminalTask(d.tasks[t].status)
    && !exists q | q in d.plans ::
         q != p && d.plans[q].task == t && (OpenPlan(d.plans[q].status) || d.plans[q].status.PlanApplying?)
  }

  // A plan that never began owns no journal, so closing it leaves the evidence alone.
  lemma ClosingAddsNothing(d: Db, p: PlanId, s: PlanStatus)
    requires Inv(d) && p in d.plans && OpenPlan(d.plans[p].status) && (s.PlanRevoked? || s.PlanExpired?)
    ensures NoNewEffects(d, SetPlan(d, p, s), {}) && NoNewEffects(SetPlan(d, p, s), d, {})
  {
    assert PlanRow(d, p);
  }

  lemma ClosingKeepsDrafts(d: Db, p: PlanId, s: PlanStatus, t: TaskId, c: TaskId)
    requires Inv(d) && p in d.plans && OpenPlan(d.plans[p].status) && (s.PlanRevoked? || s.PlanExpired?)
    ensures UncertainDraft(SetPlan(d, p, s), t, c) <==> UncertainDraft(d, t, c)
  {
    ClosingAddsNothing(d, p, s);
    var d1 := SetPlan(d, p, s);
    if c in d.tasks && Unresolved(d1, c, true) { UnresolvedBack(d, d1, {}, c); }
    if c in d.tasks && Unresolved(d, c, true) { UnresolvedBack(d1, d, {}, c); }
  }

  lemma EndedNeverWrong(d: Db, t: TaskId, c: TaskId)
    requires t in d.tasks ==> !SettleActs(d, t) || TerminalTask(d.tasks[t].status)
    ensures !WronglyCancels(d, Settle(d, t), c)
  {
    hide Unresolved, SettleEnded, SettleWith, HasUnfinishedPlan, LiveClaim;
    if SettleActs(d, t) {
      var u := Unresolved(d, t, true);
      if c in d.tasks && c != t { SettleEndedOthers(d, t, u, c); }
      if c == t { SettleEndedSelf(d, t, u); }
    }
  }

  lemma SettleEndedSelf(d: Db, t: TaskId, uncertain: bool)
    requires t in d.tasks
    ensures var e := SettleEnded(d, t, uncertain); t in e.tasks && (e.tasks[t] == d.tasks[t] || e.tasks[t].status.Blocked?)
  {
    if uncertain {} else {}
  }

  // Revoking or expiring a plan cancels a task wrongly if and only if this was the last
  // review of a live task that has a queued draft with uncertain attempts.
  lemma ClosePlanWrongExactly(d: Db, p: PlanId, s: PlanStatus)
    requires Inv(d) && p in d.plans && OpenPlan(d.plans[p].status) && (s.PlanRevoked? || s.PlanExpired?)
    ensures (exists c :: WronglyCancels(d, Settle(SetPlan(d, p, s), d.plans[p].task), c))
      <==> LastReview(d, p) && exists c :: UncertainDraft(d, d.plans[p].task, c)
  {
    var t := d.plans[p].task;
    var d1 := SetPlan(d, p, s);
    var e := Settle(d1, t);
    assert PlanRow(d, p);
    SetPlanKeeps(d, p, s);
    assert LastReview(d, p) <==> SettleActs(d1, t) && !TerminalTask(d1.tasks[t].status) by {
      forall q | q in d.plans && q != p ensures d1.plans[q] == d.plans[q] {}
    }
    forall c ensures WronglyCancels(d, e, c) <==> WronglyCancels(d1, e, c) {}
    forall c ensures UncertainDraft(d1, t, c) <==> UncertainDraft(d, t, c) { ClosingKeepsDrafts(d, p, s, t, c); }
    if LastReview(d, p) {
      SettleWrongExactly(d1, t);
    } else {
      forall c ensures !WronglyCancels(d1, e, c) { EndedNeverWrong(d1, t, c); }
    }
  }

  // ---------- expiring many plans ----------

  // No request was submitted as a draft of another request.
  ghost predicate AppliesOnly(d: Db) {
    forall c | c in d.tasks && d.tasks[c].parent.Some? :: d.tasks[c].kind.Apply?
  }

  // The effects of an apply are those of the request it was planned for.
  lemma UnresolvedSpreads(d: Db, t: TaskId, c: TaskId)
    requires Inv(d) && AppliesOnly(d) && t in d.tasks && c in d.tasks && InFamily(d, c, t) && Unresolved(d, t, true)
    ensures Unresolved(d, c, true)
  {
    assert TaskRow(d, t);
    var k :| k in d.tasks && InFamily(d, t, k) && OpenEffect(d, ResolutionOwner(d, t), k, true);
    assert InFamily(d, c, k) && OpenEffect(d, ResolutionOwner(d, c), k, true);
  }

  lemma FamilyResolved(d: Db, e: Db, t: TaskId, uncertain: bool, c: TaskId)
    requires Inv(d) && AppliesOnly(d) && t in d.tasks && (uncertain ==> Unresolved(d, t, true))
    requires NoNewEffects(d, e, if uncertain then {t} else {})
    requires c in d.tasks && !Unresolved(d, c, true)
    ensures c in e.tasks && !Unresolved(e, c, true)
  {
    assert SameLinks(d, e, c) && TaskRow(d, t);
    if uncertain && InFamily(d, c, t) { UnresolvedSpreads(d, t, c); }
    if Unresolved(e, c, true) {
      forall k | k in e.tasks && InFamily(e, c, k) ensures k !in (if uncertain then {t} else {}) { assert SameLinks(d, e, k); }
      UnresolvedBack(d, e, if uncertain then {t} else {}, c);
    }
  }

  lemma EndedAddsNothing(d: Db, t: TaskId, uncertain: bool)
    requires t in d.tasks
    ensures NoNewEffects(d, SettleEnded(d, t, uncertain), if uncertain then {t} else {})
  {
  }

  // Resolved effects stay resolved while a task is settled.
  lemma SettleKeepsResolved(d: Db, t: TaskId, c: TaskId)
    requires Inv(d) && AppliesOnly(d) && c in d.tasks && !Unresolved(d, c, true)
    ensures c in Settle(d, t).tasks && !Unresolved(Settle(d, t), c, true)
  {
    if SettleActs(d, t) {
      if TerminalTask(d.tasks[t].status) {
        var u := Unresolved(d, t, true);
        EndedAddsNothing(d, t, u);
        FamilyResolved(d, SettleEnded(d, t, u), t, u, c);
      } else {
        var d1 := StopChildren(d, ChildrenOf(d, t));
        var u := Unresolved(d1, t, true);
        StopAddsNothing(d, ChildrenOf(d, t));
        if u { UnresolvedBack(d, d1, {}, t); }
        SettleAddsNothing(d, t, u);
        FamilyResolved(d, SettleWith(d, t, u), t, u, c);
      }
    }
  }

  // If `c` is cancelled its effects are resolved.
  ghost predicate CleanIfCancelled(d: Db, c: TaskId) {
    c in d.tasks && (d.tasks[c].status.Cancelled? ==> !Unresolved(d, c, true))
  }

  lemma NoDraftsNoUncertainDrafts(d: Db, t: TaskId, c: TaskId)
    requires Inv(d) && AppliesOnly(d)
    ensures !UncertainDraft(d, t, c)
  {
    if c in d.tasks && d.tasks[c].kind.Apply? && d.tasks[c].status.Queued? { QueuedApplyIsClean(d, c); }
  }

  lemma SettleStaysClean(d: Db, t: TaskId, c: TaskId)
    requires Inv(d) && AppliesOnly(d) && CleanIfCancelled(d, c)
    ensures CleanIfCancelled(Settle(d, t), c)
  {
    if !Unresolved(d, c, true) {
      SettleKeepsResolved(d, t, c);
    } else if SettleActs(d, t) && !TerminalTask(d.tasks[t].status) {
      forall k ensures !UncertainDraft(d, t, k) { NoDraftsNoUncertainDrafts(d, t, k); }
      SettleWrongExactly(d, t);
      assert !WronglyCancels(d, Settle(d, t), c);
      SettleKeys(d, t);
    } else {
      EndedNeverWrong(d, t, c);
      SettleKeys(d, t);
    }
  }

  lemma SettleLinks(d: Db, t: TaskId, c: TaskId)
    ensures SameLinks(d, Settle(d, t), c)
  {
    if SettleActs(d, t) {
      if TerminalTask(d.tasks[t].status) {
        EndedAddsNothing(d, t, Unresolved(d, t, true));
      } else {
        SettleAddsNothing(d, t, Unresolved(StopChildren(d, ChildrenOf(d, t)), t, true));
      }
    }
  }

  lemma SettleKeys(d: Db, t: TaskId)
    ensures Settle(d, t).tasks.Keys == d.tasks.Keys
    ensures AppliesOnly(d) ==> AppliesOnly(Settle(d, t))
  {
    forall c ensures c in Settle(d, t).tasks.Keys <==> c in d.tasks.Keys { SettleLinks(d, t, c); }
    forall c | c in d.tasks ensures Settle(d, t).tasks[c].kind == d.tasks[c].kind && Settle(d, t).tasks[c].parent == d.tasks[c].parent {
      SettleLinks(d, t, c);
    }
  }

  lemma ExpireStaysClean(d: Db, p: PlanId, c: TaskId)
    requires Inv(d) && AppliesOnly(d) && CleanIfCancelled(d, c)
    ensures AppliesOnly(ExpirePlan(d, p)) && CleanIfCancelled(ExpirePlan(d, p), c)
  {
    if p in d.plans && OpenPlan(d.plans[p].status) {
      var d1 := SetPlan(d, p, PlanExpired);
      SetPlanKeeps(d, p, PlanExpired);
      ClosingAddsNothing(d, p, PlanExpired);
      if Unresolved(d1, c, true) { UnresolvedBack(d, d1, {}, c); }
      SettleStaysClean(d1, d.plans[p].task, c);
      SettleKeys(d1, d.plans[p].task);
    }
  }

  lemma {:induction false} ExpirePlansStayClean(d: Db, ps: seq<PlanId>, c: TaskId)
    requires Inv(d) && AppliesOnly(d) && CleanIfCancelled(d, c)
    ensures Inv(ExpirePlans(d, ps)) && AppliesOnly(ExpirePlans(d, ps)) && CleanIfCancelled(ExpirePlans(d, ps), c)
    decreases |ps|
  {
    if ps != [] {
      ExpirePlansKeep(d, [ps[0]]);
      assert [ps[0]][1..] == [] && ExpirePlans(ExpirePlan(d, ps[0]), []) == ExpirePlan(d, ps[0]);
      ExpireStaysClean(d, ps[0], c);
      ExpirePlansStayClean(ExpirePlan(d, ps[0]), ps[1..], c);
    }
  }

  lemma {:induction false} SettleAllStaysClean(d: Db, ts: seq<TaskId>, c: TaskId)
    requires Inv(d) && AppliesOnly(d) && CleanIfCancelled(d, c)
    requires forall i, j :: 0 <= i < j < |ts| ==> ts[i] != ts[j]
    requires forall i :: 0 <= i < |ts| ==> ts[i] in d.tasks && TerminalTask(d.tasks[ts[i]].status)
    ensures CleanIfCancelled(SettleAll(d, ts), c)
    decreases |ts|
  {
    if ts != [] {
      var d1 := Settle(d, ts[0]);
      SettleKeeps(d, ts[0]);
      SettleStaysClean(d, ts[0], c);
      SettleKeys(d, ts[0]);
      forall i | 0 <= i < |ts[1..]| ensures ts[1..][i] in d1.tasks && TerminalTask(d1.tasks[ts[1..][i]].status) {
        SettleTerminal(d, ts[0], ts[i + 1]);
      }
      SettleAllStaysClean(d1, ts[1..], c);
    }
  }

  // With no drafts in the ledger, a whole expiry pass declares no task wrongly cancelled.
  lemma SettleExpiredNeverWrong(d: Db, ps: seq<PlanId>, ts: seq<TaskId>, c: TaskId)
    requires Inv(d) && AppliesOnly(d)
    ensures !WronglyCancels(d, SettleExpired(d, ps, ts), c)
  {
    var d1 := ExpirePlans(d, ps);
    var stale := set t | t in d1.tasks && StaleReview(d1, t);
    if CleanIfCancelled(d, c) && Enumerates(ps, set p | p in d.plans && ExpiredPlan(d, p)) && Enumerates(ts, stale) {
      ExpirePlansStayClean(d, ps, c);
      forall i | 0 <= i < |ts| ensures ts[i] in d1.tasks && TerminalTask(d1.tasks[ts[i]].status) {
        assert ts[i] in ts;
        assert ts[i] in stale;
      }
      SettleAllStaysClean(d1, ts, c);
    }
  }
}
