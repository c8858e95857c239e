// A reviewed file plan: the immutable list of changes an owner approves.
// A hash in the ledger is represented by the bytes it is the digest of, so
// comparing two hashes is comparing two contents (`None` is an absent file).
module FilePlans {
  import opened Options

  type Bytes = seq<bv8>

  datatype Action = Create | Modify | Delete

  datatype Change = Change(path: string, action: Action, before: Option<Bytes>, after: Option<Bytes>)

  // One row of `change_journal`: the preimage is saved before any file is touched.
  datatype JournalRow = JournalRow(path: string, before: Option<Bytes>, after: Option<Bytes>, applied: bool)

  function JournalOf(changes: seq<Change>): (rows: seq<JournalRow>)
    ensures |rows| == |changes|
    ensures forall i :: 0 <= i < |rows| ==>
      rows[i] == JournalRow(changes[i].path, changes[i].before, changes[i].after, false)
  {
    seq(|changes|, i requires 0 <= i < |changes| =>
      JournalRow(changes[i].path, changes[i].before, changes[i].after, false))
  }

  // What `propose` guarantees of one change.
  predicate WellFormed(c: Change) {
    && (c.action.Create? <==> c.before.None?)
    && (c.action.Delete? <==> c.after.None?)
  }

  // New files may be made without review, since they replace nothing.
  predicate CreatesOnly(changes: seq<Change>) {
    forall i :: 0 <= i < |changes| ==> changes[i].action.Create?
  }

  predicate DistinctPaths(changes: seq<Change>) {
    forall i, j :: 0 <= i < j < |changes| ==> changes[i].path != changes[j].path
  }

  predicate ValidPlan(changes: seq<Change>) {
    && (forall i :: 0 <= i < |changes| ==> WellFormed(changes[i]))
    && DistinctPaths(changes)
  }
}
