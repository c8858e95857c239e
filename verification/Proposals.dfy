// Turning a worker's list of requested changes into an immutable, reviewable plan.
module Proposals {
  import opened Options
  import opened FilePlans
  import opened WorkspaceFiles

  const MAX_ITEMS := 40
  const MAX_BYTES := 2_000_000

  // `name` is absent if the path is unsafe or private; `reasoned` if a rationale is given.
  datatype Item = Item(name: Option<string>, action: Action, content: Bytes, reasoned: bool)

  datatype Prepared = Accepted(changes: seq<Change>, automatic: bool) | Rejected

  // Where the plan reads preimages: the workspace, or for a draft the reviewed snapshot.
  datatype Source = Source(files: Files, baseline: Files, directory: string, draft: bool)

  // New files go into the plan's own directory.
  function NameOf(s: Source, i: Item): string
    requires i.name.Some?
  {
    if i.action.Create? && !(s.draft && (s.directory + "/") <= i.name.value) then s.directory + "/" + i.name.value else i.name.value
  }

  function Preimage(s: Source, name: string): Option<Bytes> {
    if s.draft then Lookup(s.baseline, name) else Lookup(s.files, name)
  }

  function ChangeOf(s: Source, i: Item): Change
    requires i.name.Some?
  {
    Change(NameOf(s, i), i.action, Preimage(s, NameOf(s, i)), if i.action.Delete? then None else Some(i.content))
  }

  // One item on its own: a safe path, a reason, and a preimage that is what the worker saw.
  predicate Acceptable(s: Source, i: Item) {
    && i.name.Some? && i.reasoned
    && var name := NameOf(s, i);
    if i.action.Create? then Preimage(s, name).None?
    else Preimage(s, name).Some? && Lookup(s.baseline, name) == Preimage(s, name)
  }

  // A proposed change is safe and explained; a creation finds no file where it goes, which is the
  // plan's own directory; any other change finds its file as the worker saw it, under its own name.
  // It plans exactly the worker's content, or none for a deletion.
  lemma AcceptableExactly(s: Source, i: Item)
    ensures Acceptable(s, i) <==>
      && i.name.Some? && i.reasoned
      && var there := if s.draft then s.baseline else s.files;
      match i.action
      case Create => NameOf(s, i) !in there
      case _ => i.name.value in there && i.name.value in s.baseline && there[i.name.value] == s.baseline[i.name.value]
    ensures i.name.Some? ==>
      && (i.action.Create? ==>
            && (s.directory + "/") <= NameOf(s, i)
            && (NameOf(s, i) == i.name.value || NameOf(s, i) == s.directory + "/" + i.name.value)
            && (!s.draft ==> NameOf(s, i) == s.directory + "/" + i.name.value))
      && (!i.action.Create? ==> NameOf(s, i) == i.name.value)
      && ChangeOf(s, i).path == NameOf(s, i) && ChangeOf(s, i).action == i.action
      && ChangeOf(s, i).before == Lookup(if s.draft then s.baseline else s.files, NameOf(s, i))
      && ChangeOf(s, i).after == match i.action case Delete => None case _ => Some(i.content)
  {
    if i.name.Some? {
      assert s.directory + "/" + i.name.value == (s.directory + "/") + i.name.value;
    }
  }

  function NewBytes(items: seq<Item>): nat {
    if items == [] then 0
    else NewBytes(items[..|items| - 1]) + if items[|items| - 1].action.Delete? then 0 else |items[|items| - 1].content|
  }

  ghost predicate Names(s: Source, items: seq<Item>) {
    && (forall i :: 0 <= i < |items| ==> Acceptable(s, items[i]))
    && (forall i, j :: 0 <= i < j < |items| ==> NameOf(s, items[i]) != NameOf(s, items[j]))
  }

  ghost predicate Proposable(s: Source, items: seq<Item>) {
    1 <= |items| <= MAX_ITEMS && Names(s, items) && NewBytes(items) <= MAX_BYTES
  }

  lemma {:induction false} FewerBytes(items: seq<Item>, k: nat)
    requires k <= |items|
    ensures NewBytes(items[..k]) <= NewBytes(items)
    decreases |items|
  {
    if k < |items| {
      FewerBytes(items[..|items| - 1], k);
      assert items[..|items| - 1][..k] == items[..k];
    } else {
      assert items[..k] == items;
    }
  }

  // What holds after the first `k` items have been taken.
  ghost predicate Taken(s: Source, items: seq<Item>, k: nat, changes: seq<Change>, seen: set<string>) {
    && k <= |items| && |changes| == k && Names(s, items[..k])
    && (forall i :: 0 <= i < k ==> items[i].name.Some? && changes[i] == ChangeOf(s, items[i]))
    && (forall q :: q in seen <==> exists i :: 0 <= i < k && changes[i].path == q)
  }

  lemma TakenNext(s: Source, items: seq<Item>, k: nat, changes: seq<Change>, seen: set<string>)
    requires Taken(s, items, k, changes, seen) && k < |items|
    requires Acceptable(s, items[k]) && NameOf(s, items[k]) !in seen
    ensures Taken(s, items, k + 1, changes + [ChangeOf(s, items[k])], seen + {NameOf(s, items[k])})
  {
    hide Acceptable, Preimage, NameOf;
    AcceptableHasName(s, items[k]);
    var c := ChangeOf(s, items[k]);
    var more, prior, next := changes + [c], items[..k], items[..k + 1];
    assert c.path == NameOf(s, items[k]);
    forall i | 0 <= i < |next| ensures Acceptable(s, next[i]) && next[i].name.Some? && more[i] == ChangeOf(s, next[i]) {
      if i < k { assert prior[i] == next[i] && Acceptable(s, prior[i]); }
    }
    forall i, j | 0 <= i < j < |next| ensures NameOf(s, next[i]) != NameOf(s, next[j]) {
      if j < k { assert prior[i] == next[i] && prior[j] == next[j]; } else { assert changes[i].path in seen; }
    }
  }

  lemma AcceptableHasName(s: Source, i: Item)
    requires Acceptable(s, i)
    ensures i.name.Some? && ChangeOf(s, i).action == i.action
  {
  }

  lemma CreatesNext(changes: seq<Change>, c: Change)
    ensures CreatesOnly(changes + [c]) <==> CreatesOnly(changes) && c.action.Create?
  {
    var more := changes + [c];
    assert more[|changes|] == c;
    if CreatesOnly(more) {
      forall i | 0 <= i < |changes| ensures changes[i].action.Create? { assert more[i] == changes[i]; }
    }
  }

  lemma TakenAll(s: Source, items: seq<Item>, changes: seq<Change>, seen: set<string>)
    requires Taken(s, items, |items|, changes, seen)
    ensures Names(s, items) && ValidPlan(changes) && (!s.draft ==> Intact(s.files, changes))
  {
    assert items[..|items|] == items;
    forall i, j | 0 <= i < j < |changes| ensures changes[i].path != changes[j].path {
      assert NameOf(s, items[i]) != NameOf(s, items[j]);
    }
    forall i | 0 <= i < |changes| ensures WellFormed(changes[i]) { assert Acceptable(s, items[i]); }
  }

  // The list is accepted exactly when every item is acceptable, no file is named twice and
  // the new content fits; the plan is then well formed, and its preimages hold right now.
  method Prepare(s: Source, items: seq<Item>) returns (p: Prepared)
    ensures p.Accepted? <==> Proposable(s, items)
    ensures p.Accepted? ==>
      && |p.changes| == |items| && ValidPlan(p.changes)
      && (forall i :: 0 <= i < |items| ==> items[i].name.Some? && p.changes[i] == ChangeOf(s, items[i]))
      && (!s.draft ==> Intact(s.files, p.changes))
      && (p.automatic <==> !s.draft && CreatesOnly(p.changes))
  {
    hide Acceptable, NameOf, ChangeOf, ValidPlan, Intact, Names;
    if !(1 <= |items| <= MAX_ITEMS) { return Rejected; }
    var changes: seq<Change> := [];
    var seen: set<string> := {};
    var total, onlyCreates := 0, true;
    var k := 0;
    NothingTaken(s, items);
    while k < |items|
      invariant Taken(s, items, k, changes, seen) && total == NewBytes(items[..k]) && total <= MAX_BYTES
      invariant onlyCreates <==> CreatesOnly(changes)
    {
      var item := items[k];
      assert items[..k + 1][..k] == items[..k] && items[..k + 1][k] == item;
      if !Acceptable(s, item) {
        Unnamed(s, items, k, changes, seen);
        return Rejected;
      }
      AcceptableHasName(s, item);
      if NameOf(s, item) in seen {
        Unnamed(s, items, k, changes, seen);
        return Rejected;
      }
      total := total + if item.action.Delete? then 0 else |item.content|;
      if total > MAX_BYTES {
        FewerBytes(items, k + 1);
        return Rejected;
      }
      TakenNext(s, items, k, changes, seen);
      CreatesNext(changes, ChangeOf(s, item));
      changes, seen := changes + [ChangeOf(s, item)], seen + {NameOf(s, item)};
      onlyCreates, k := onlyCreates && item.action.Create?, k + 1;
    }
    assert items[..k] == items;
    TakenAll(s, items, changes, seen);
    return Accepted(changes, !s.draft && onlyCreates);
  }

  lemma NothingTaken(s: Source, items: seq<Item>)
    ensures Taken(s, items, 0, [], {})
  {
  }

  lemma Unnamed(s: Source, items: seq<Item>, k: nat, changes: seq<Change>, seen: set<string>)
    requires k < |items| && Taken(s, items, k, changes, seen)
    requires !Acceptable(s, items[k]) || NameOf(s, items[k]) in seen
    ensures !Names(s, items)
  {
    if Acceptable(s, items[k]) {
      var i :| 0 <= i < k && changes[i].path == NameOf(s, items[k]);
      assert NameOf(s, items[i]) == NameOf(s, items[k]);
    }
  }
}
