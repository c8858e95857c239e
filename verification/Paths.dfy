// Finite sequences of transactions from one ledger to another.
module Paths {
  import opened Options
  import opened FilePlans
  import opened LedgerTypes
  import opened Transactions
  import opened LedgerInvariants
  import opened LedgerProofs
  import opened Protocol

  ghost predicate Path(states: seq<Db>, steps: seq<Step>, d: Db, e: Db) {
    && |states| == |steps| + 1 && states[0] == d && states[|steps|] == e
    && forall i: nat {:trigger Follows(states, steps, i)} :: Follows(states, steps, i)
  }

  // Some sequence of transactions takes the ledger from `d` to `e`.
  ghost predicate Leads(d: Db, e: Db) { exists states, steps :: Path(states, steps, d, e) }

  lemma LeadsSelf(d: Db)
    ensures Leads(d, d)
  {
    assert Path([d], [], d, d);
  }

  lemma LeadsNext(a: Db, d: Db, s: Step, e: Db)
    requires Leads(a, d) && Next(d, s) == e
    ensures Leads(a, e)
  {
    var states, steps :| Path(states, steps, a, d);
    forall i: nat ensures Follows(states + [e], steps + [s], i) { assert i < |steps| ==> Follows(states, steps, i); }
    assert Path(states + [e], steps + [s], a, e);
  }

  // A state that some run of the protocol ends in.
  ghost predicate Reached(d: Db) { exists states, steps :: Run(states, steps) && states[|steps|] == d }

  lemma LeadsIsRun(d: Db)
    requires Leads(EMPTY, d)
    ensures Reached(d) && Inv(d)
  {
    var states, steps :| Path(states, steps, EMPTY, d);
    assert Run(states, steps);
    Reachable(states, steps, |steps|);
  }

  // A transaction in front of a path.
  lemma LeadsAfter(d: Db, s: Step, f: Db)
    requires Leads(Next(d, s), f)
    ensures Leads(d, f)
  {
    var states, steps :| Path(states, steps, Next(d, s), f);
    forall i: nat ensures Follows([d] + states, [s] + steps, i) {
      assert i > 0 && i <= |steps| ==> Follows(states, steps, i - 1);
    }
    assert Path([d] + states, [s] + steps, d, f);
  }

  // Paths keep the invariant and evolve the ledger.
  lemma {:induction false} PathKeeps(states: seq<Db>, steps: seq<Step>, d: Db, e: Db)
    requires Inv(d) && Path(states, steps, d, e)
    ensures Keeps(d, e)
    decreases |steps|
  {
    hide Next, Inv, Evolves;
    if steps == [] {
      KeepsSelf(d);
    } else {
      assert Follows(states, steps, 0);
      NextKeeps(d, steps[0]);
      forall i: nat ensures Follows(states[1..], steps[1..], i) { assert Follows(states, steps, i + 1); }
      PathKeeps(states[1..], steps[1..], states[1], e);
      KeepsTransitive(d, states[1], e);
    }
  }

  lemma LeadsKeeps(d: Db, e: Db)
    requires Inv(d) && Leads(d, e)
    ensures Keeps(d, e)
  {
    var states, steps :| Path(states, steps, d, e);
    PathKeeps(states, steps, d, e);
  }
}
