// Conversation order in every reachable state.
module Threads {
  import opened Options
  import opened FilePlans
  import opened LedgerTypes
  import opened Transactions
  import opened LedgerInvariants
  import opened Protocol

  // The live generation of a conversation numbers its turns 1, 2, ..., next - 1: every number
  // is used once, no other number is used, and each turn links to the one before it.
  lemma TurnsAreNumbered(states: seq<Db>, steps: seq<Step>, i: nat, k: SessionKey, n: nat)
    requires Run(states, steps) && i < |states| && k in states[i].sessions
    ensures var d, s := states[i], states[i].sessions[k];
      && (1 <= n < s.next <==> exists t :: TurnAt(d.turns, k, s.generation, n, t))
      && (forall t, u | TurnAt(d.turns, k, s.generation, n, t) && TurnAt(d.turns, k, s.generation, n, u) :: t == u)
      && (forall t | TurnAt(d.turns, k, s.generation, n, t) ::
            if n == 1 then d.turns[t].related == None
            else d.turns[t].related.Some? && TurnAt(d.turns, k, s.generation, n - 1, d.turns[t].related.value))
  {
    Reachable(states, steps, i);
    var d, s := states[i], states[i].sessions[k];
    assert SessionRow(d, k);
    if 1 <= n < s.next {
      assert Filled(d.turns, k, s.generation, n);
    }
    forall t | TurnAt(d.turns, k, s.generation, n, t)
      ensures 1 <= n < s.next
      ensures if n == 1 then d.turns[t].related == None
              else d.turns[t].related.Some? && TurnAt(d.turns, k, s.generation, n - 1, d.turns[t].related.value)
    {
      assert TurnRow(d, t);
    }
    forall t, u | TurnAt(d.turns, k, s.generation, n, t) && TurnAt(d.turns, k, s.generation, n, u) ensures t == u {
      assert ApartTurns(d, t, u);
    }
  }

  // At most one turn of a generation is running or being stopped.
  lemma OneTurnRuns(states: seq<Db>, steps: seq<Step>, i: nat, t: TaskId, u: TaskId)
    requires Run(states, steps) && i < |states|
    requires SameThread(states[i], t, u) && t in states[i].tasks && u in states[i].tasks
    ensures !(ActiveTask(states[i].tasks[t].status) && ActiveTask(states[i].tasks[u].status))
  {
    Reachable(states, steps, i);
    assert ApartTurns(states[i], t, u);
  }

  // A claim that starts a turn leaves no earlier turn of the generation queued and eligible,
  // and no turn of it was running.
  lemma TurnsStartInOrder(d: Db, s: Step, t: TaskId, u: TaskId)
    requires Inv(d) && s.ClaimStep? && s.t == t && Next(d, s) != d && SameThread(d, t, u)
    ensures var e := Next(d, s);
      && u in e.tasks && !ActiveTask(e.tasks[u].status) && ActiveTask(e.tasks[t].status)
      && (e.turns[u].sequence < e.turns[t].sequence ==> !ReadyInQueue(e, u))
  {
    assert TurnRow(d, u);
  }

  // A pending question is the newest turn's, answered by that turn's own succeeded attempt.
  lemma PendingIsNewest(states: seq<Db>, steps: seq<Step>, i: nat, k: SessionKey)
    requires Run(states, steps) && i < |states| && k in states[i].sessions && states[i].sessions[k].pending.Some?
    ensures var d, s := states[i], states[i].sessions[k];
      var (t, x) := s.pending.value;
      && t in d.turns && d.turns[t].session == k && d.turns[t].generation == s.generation
      && (forall u | InGeneration(d, k, s.generation, u) && u != t :: d.turns[u].sequence < d.turns[t].sequence)
      && d.turns[t].question && d.turns[t].completed == Some(x)
      && x in d.execs && d.execs[x].task == t && x in d.results && d.results[x].outcome.OutSucceeded?
  {
    Reachable(states, steps, i);
    var d, s := states[i], states[i].sessions[k];
    var (t, x) := s.pending.value;
    assert SessionRow(d, k) && PendingRow(d, k, s, t, x) && ResultRow(d, x);
    forall u | InGeneration(d, k, s.generation, u) && u != t ensures d.turns[u].sequence < d.turns[t].sequence {
      assert TurnRow(d, u) && ApartTurns(d, t, u);
    }
  }
}
