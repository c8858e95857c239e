// Topic summaries: numbered revisions, one approved version a topic, and reviews that
// consume the version they were made for.
module Wiki {
  import opened Options

  type EntryId = nat
  type ExecId = nat
  type SessionId = nat

  datatype Status = Pending | Approved | Rejected | Superseded | Forgotten

  datatype Scope = Scope(owner: nat, workspace: nat, project: Option<nat>, session: SessionId, topic: nat)

  // `row` is the insertion order.
  datatype Entry = Entry(scope: Scope, source: ExecId, generation: nat, content: string, status: Status, revision: nat, version: nat, row: nat)

  // A screened note of a finished attempt.
  datatype Note = Note(id: EntryId, topic: nat, content: string)

  type Entries = map<EntryId, Entry>

  predicate Decision(s: Status) { s.Approved? || s.Rejected? || s.Forgotten? }

  function Ids(notes: seq<Note>): set<EntryId> { set k | 0 <= k < |notes| :: notes[k].id }

  predicate Active(e: Entry) { e.status.Pending? || e.status.Approved? }

  // Later entries of a topic carry higher revisions.
  ghost predicate Ordered(es: Entries, i: EntryId, j: EntryId) {
    i in es && j in es && i != j ==>
      es[i].row != es[j].row && (es[i].scope == es[j].scope && es[i].row < es[j].row ==> es[i].revision < es[j].revision)
  }

  // Of the entries visible since the latest reset, at most one a topic is approved.
  ghost predicate OneApproved(es: Entries, floors: map<SessionId, nat>, i: EntryId, j: EntryId) {
    i in es && j in es && i != j && es[i].scope == es[j].scope && Visible(es[i], floors) && Visible(es[j], floors)
    ==> !(es[i].status.Approved? && es[j].status.Approved?)
  }

  predicate Visible(e: Entry, floors: map<SessionId, nat>) { e.generation >= FloorOf(floors, e.scope.session) }

  function FloorOf(floors: map<SessionId, nat>, s: SessionId): nat { if s in floors then floors[s] else 1 }

  // Entries stay, keep their place, and their review versions only grow.
  ghost predicate Evolves(a: Entries, b: Entries) {
    forall i {:trigger i in a} :: i in a ==>
      && i in b && a[i].scope == b[i].scope && a[i].revision == b[i].revision && a[i].row == b[i].row
      && a[i].version <= b[i].version
  }

  // The note repeats a shown one of its topic, word for word, or its attempt has left one there.
  predicate Known(es: Entries, floors: map<SessionId, nat>, forgotten: set<ExecId>, base: Scope, source: ExecId, note: Note) {
    || (exists i | i in es ::
          && es[i].scope == base.(topic := note.topic) && es[i].content == note.content
          && (es[i].status.Pending? || es[i].status.Approved?) && es[i].source !in forgotten
          && FloorOf(floors, es[i].scope.session) <= es[i].generation)
    || (exists i | i in es :: es[i].source == source && es[i].scope.topic == note.topic)
  }

  // A fresh entry holds exactly the note, as a first proposal.
  predicate Captured(e: Entry, base: Scope, source: ExecId, generation: nat, note: Note) {
    && e.scope == base.(topic := note.topic) && e.content == note.content && e.source == source && e.generation == generation
    && e.status.Pending? && e.version == 1
  }

  // The note has its entry, or something else of the store is in its place.
  ghost predicate TakenUp(was: Entries, es: Entries, floors: map<SessionId, nat>, forgotten: set<ExecId>,
                          base: Scope, source: ExecId, generation: nat, note: Note)
  {
    || (note.id in es && note.id !in was && Captured(es[note.id], base, source, generation, note))
    || (note.id !in es && Known(es, floors, forgotten, base, source, note))
  }

  lemma KnownStays(a: Entries, b: Entries, floors: map<SessionId, nat>, forgotten: set<ExecId>, base: Scope, source: ExecId, note: Note)
    requires (forall i | i in a :: i in b && b[i] == a[i]) && Known(a, floors, forgotten, base, source, note)
    ensures Known(b, floors, forgotten, base, source, note)
  {
    if i :| i in a && a[i].source == source && a[i].scope.topic == note.topic {
      assert i in b;
    } else {
      var i :| i in a && a[i].scope == base.(topic := note.topic) && a[i].content == note.content
        && (a[i].status.Pending? || a[i].status.Approved?) && a[i].source !in forgotten && FloorOf(floors, a[i].scope.session) <= a[i].generation;
      assert i in b;
    }
  }

  lemma TakenUpStays(was: Entries, a: Entries, b: Entries, floors: map<SessionId, nat>, forgotten: set<ExecId>,
                     base: Scope, source: ExecId, generation: nat, note: Note)
    requires (forall i | i in a :: i in b && b[i] == a[i]) && (note.id in b ==> note.id in a)
    requires TakenUp(was, a, floors, forgotten, base, source, generation, note)
    ensures TakenUp(was, b, floors, forgotten, base, source, generation, note)
  {
    hide Known, Captured;
    if note.id !in a { KnownStays(a, b, floors, forgotten, base, source, note); }
  }

  // One more than the highest revision of the topic, or 1.
  ghost predicate NextOf(es: Entries, s: Scope, revision: nat) {
    && (forall i | i in es && es[i].scope == s :: es[i].revision < revision)
    && (revision == 1 || exists i | i in es :: es[i].scope == s && es[i].revision + 1 == revision)
  }

  // A shown version that must give way is superseded; any other stays.
  predicate GivesWay(a: Entry, b: Entry, must: bool, floors: map<SessionId, nat>) {
    b == if must && (a.status.Pending? || a.status.Approved?) && FloorOf(floors, a.scope.session) <= a.generation
         then a.(status := Superseded, version := a.version + 1) else a
  }

  // What taking back a source leaves of its other entries.
  predicate Emptied(a: Entry, b: Entry, must: bool) {
    b == if must then a.(status := Forgotten, content := "", version := a.version + 1) else a
  }

  // The reviewed entry: its version is used up, and a forgotten one loses its content.
  predicate Reviewed(a: Entry, b: Entry, decision: Status) {
    b == a.(status := decision, version := a.version + 1, content := if decision.Forgotten? then "" else a.content)
  }

  class WikiStore {
    var entries: Entries
    var floors: map<SessionId, nat>
    var forgotten: set<ExecId>
    var rows: nat

    ghost predicate Valid()
      reads this
    {
      && (forall i | i in entries :: entries[i].row < rows && entries[i].revision >= 1)
      && (forall i, j {:trigger Ordered(entries, i, j)} :: Ordered(entries, i, j))
      && (forall i, j {:trigger OneApproved(entries, floors, i, j)} :: OneApproved(entries, floors, i, j))
    }

    constructor ()
      ensures Valid() && entries == map[]
    {
      entries, floors, forgotten, rows := map[], map[], {}, 0;
    }

    // coalesce(max(revision), 0) + 1
    method NextRevision(s: Scope) returns (revision: nat)
      ensures revision >= 1 && forall i | i in entries && entries[i].scope == s :: entries[i].revision < revision
      ensures revision > 1 ==> exists i | i in entries :: entries[i].scope == s && entries[i].revision + 1 == revision
    {
      var top := 0;
      var todo := entries.Keys;
      while todo != {}
        invariant todo <= entries.Keys
        invariant forall i | i in entries && i !in todo && entries[i].scope == s :: entries[i].revision <= top
        invariant top > 0 ==> exists i | i in entries :: entries[i].scope == s && entries[i].revision == top
        decreases |todo|
      {
        var i :| i in todo;
        if entries[i].scope == s && entries[i].revision > top { top := entries[i].revision; }
        todo := todo - {i};
      }
      revision := top + 1;
    }

    predicate Duplicate(s: Scope, content: string)
      reads this
    {
      exists i | i in entries ::
        entries[i].scope == s && entries[i].content == content && Active(entries[i]) && entries[i].source !in forgotten && Visible(entries[i], floors)
    }

    // One note becomes a pending entry unless it repeats one or its attempt already has one.
    method CaptureNote(base: Scope, source: ExecId, generation: nat, note: Note) returns (added: bool)
      requires Valid() && note.id !in entries
      modifies this`entries, this`rows
      ensures Valid() && Evolves(old(entries), entries)
      ensures added <==> !Known(old(entries), floors, forgotten, base, source, note)
      ensures if added then note.id in entries && entries == old(entries)[note.id := entries[note.id]] && rows == old(rows) + 1
              else entries == old(entries) && rows == old(rows)
      ensures added ==> Captured(entries[note.id], base, source, generation, note) && entries[note.id].row == old(rows)
      ensures added ==> NextOf(old(entries), base.(topic := note.topic), entries[note.id].revision)
    {
      var scope := base.(topic := note.topic);
      if Duplicate(scope, note.content) { return false; }
      var revision := NextRevision(scope);
      if exists i | i in entries :: entries[i].source == source && entries[i].scope.topic == note.topic { return false; }
      ghost var before := entries;
      entries := entries[note.id := Entry(scope, source, generation, note.content, Pending, revision, 1, rows)];
      rows := rows + 1;
      forall i, j ensures Ordered(entries, i, j) { assert Ordered(before, i, j); }
      forall i, j ensures OneApproved(entries, floors, i, j) { assert OneApproved(before, floors, i, j); }
      return true;
    }

    // `capture_conn`: the notes of one finished attempt, in order. An attempt from before the
    // latest reset leaves nothing.
    method Capture(base: Scope, source: ExecId, generation: nat, notes: seq<Note>)
      requires Valid()
      requires forall k :: 0 <= k < |notes| ==> notes[k].id !in entries
      requires forall k, n :: 0 <= k < n < |notes| ==> notes[k].id != notes[n].id
      modifies this`entries, this`rows
      ensures Valid() && Evolves(old(entries), entries)
      ensures generation < FloorOf(floors, base.session) ==> entries == old(entries)
      ensures forall i | i in entries && i !in old(entries) :: entries[i].status.Pending? && entries[i].generation == generation && i in Ids(notes)
      ensures forall i | i in old(entries) :: entries[i] == old(entries)[i]
      ensures generation >= FloorOf(floors, base.session) ==>
        forall k :: 0 <= k < |notes| ==> TakenUp(old(entries), entries, floors, forgotten, base, source, generation, notes[k])
    {
      if generation < FloorOf(floors, base.session) { return; }
      hide Known, Captured;
      for k := 0 to |notes|
        invariant Valid() && Evolves(old(entries), entries) && forall i | i in old(entries) :: i in entries && entries[i] == old(entries)[i]
        invariant forall n :: 0 <= n < k ==> TakenUp(old(entries), entries, floors, forgotten, base, source, generation, notes[n])
        invariant forall n :: k <= n < |notes| ==> notes[n].id !in entries
        invariant forall i | i in entries && i !in old(entries) :: entries[i].status.Pending? && entries[i].generation == generation && i in Ids(notes)
      {
        ghost var before := entries;
        var added := CaptureNote(base, source, generation, notes[k]);
        assert forall i | i in before :: i in entries && entries[i] == before[i];
        forall n | 0 <= n < k + 1 ensures TakenUp(old(entries), entries, floors, forgotten, base, source, generation, notes[n]) {
          if n < k {
            TakenUpStays(old(entries), before, entries, floors, forgotten, base, source, generation, notes[n]);
          } else if !added {
            KnownStays(before, entries, floors, forgotten, base, source, notes[k]);
          }
        }
      }
    }

    // `shown` is the rest of the visibility rule, which can only refuse.
    predicate Reviewable(s: Scope, id: EntryId, version: nat, shown: bool)
      reads this
    {
      && shown && id in entries && entries[id].scope == s && FloorOf(floors, s.session) <= entries[id].generation
      && (entries[id].status.Pending? || entries[id].status.Approved?) && entries[id].version == version
    }

    // The other visible versions of the topic give way.
    method Supersede(s: Scope, id: EntryId)
      requires Valid()
      modifies this`entries
      ensures Valid() && Evolves(old(entries), entries) && entries.Keys == old(entries.Keys)
      ensures forall i | i in old(entries) :: GivesWay(old(entries)[i], entries[i], i != id && old(entries)[i].scope == s, floors)
    {
      ghost var before := entries;
      entries := map i | i in entries ::
        if entries[i].scope == s && i != id && Active(entries[i]) && Visible(entries[i], floors)
        then entries[i].(status := Superseded, version := entries[i].version + 1) else entries[i];
      forall i, j ensures Ordered(entries, i, j) { assert Ordered(before, i, j); }
      forall i, j ensures OneApproved(entries, floors, i, j) { assert OneApproved(before, floors, i, j); }
    }

    // Everything else taken from the same attempt is emptied too.
    method ForgetSource(source: ExecId, id: EntryId)
      requires Valid()
      modifies this`entries, this`forgotten
      ensures Valid() && Evolves(old(entries), entries) && entries.Keys == old(entries.Keys)
      ensures forgotten == old(forgotten) + {source}
      ensures forall i | i in old(entries) :: Emptied(old(entries)[i], entries[i], i != id && old(entries)[i].source == source)
    {
      ghost var before := entries;
      forgotten := forgotten + {source};
      entries := map i | i in entries ::
        if entries[i].source == source && i != id
        then entries[i].(status := Forgotten, content := "", version := entries[i].version + 1) else entries[i];
      forall i, j ensures Ordered(entries, i, j) { assert Ordered(before, i, j); }
      forall i, j ensures OneApproved(entries, floors, i, j) { assert OneApproved(before, floors, i, j); }
    }

    method Review(s: Scope, id: EntryId, decision: Status, version: nat, shown: bool) returns (accepted: bool)
      requires Valid()
      modifies this`entries, this`forgotten
      ensures Valid() && Evolves(old(entries), entries) && entries.Keys == old(entries.Keys)
      ensures accepted == (Decision(decision) && version >= 1 && old(Reviewable(s, id, version, shown)))
      ensures !accepted ==> entries == old(entries) && forgotten == old(forgotten)
      ensures accepted ==>
        && id in entries && Reviewed(old(entries)[id], entries[id], decision) && entries[id].version == version + 1
        && (forall i | i in old(entries) && i != id ::
              match decision
              case Approved => GivesWay(old(entries)[i], entries[i], old(entries)[i].scope == s, floors)
              case Forgotten => Emptied(old(entries)[i], entries[i], old(entries)[i].source == old(entries)[id].source)
              case _ => entries[i] == old(entries)[i])
        && forgotten == old(forgotten) + if decision.Forgotten? then {old(entries)[id].source} else {}
    {
      accepted := Decision(decision) && version >= 1 && Reviewable(s, id, version, shown);
      if !accepted { return; }
      if decision.Approved? { Supersede(s, id); }
      if decision.Forgotten? { ForgetSource(entries[id].source, id); }
      Decide(id, decision);
    }

    method Decide(id: EntryId, decision: Status)
      requires Valid() && id in entries
      requires decision.Approved? ==>
        forall i | i in entries && i != id && entries[i].scope == entries[id].scope && Visible(entries[i], floors) :: !entries[i].status.Approved?
      modifies this`entries
      ensures Valid() && Evolves(old(entries), entries)
      ensures entries == old(entries)[id := old(entries)[id].(status := decision, version := old(entries)[id].version + 1,
                                                              content := if decision.Forgotten? then "" else old(entries)[id].content)]
    {
      ghost var before := entries;
      entries := entries[id := entries[id].(status := decision, version := entries[id].version + 1,
                                            content := if decision.Forgotten? then "" else entries[id].content)];
      forall i, j ensures Ordered(entries, i, j) { assert Ordered(before, i, j); }
      forall i, j ensures OneApproved(entries, floors, i, j) { assert OneApproved(before, floors, i, j); }
    }

    // `reset` of the conversation: earlier entries stop being visible.
    method Reset(session: SessionId)
      requires Valid()
      modifies this`floors
      ensures Valid() && floors == old(floors)[session := FloorOf(old(floors), session) + 1]
      ensures forall i | i in entries && entries[i].scope.session == session && entries[i].generation <= FloorOf(old(floors), session) ::
        !Visible(entries[i], floors)
    {
      ghost var before := floors;
      floors := floors[session := FloorOf(floors, session) + 1];
      forall i, j ensures OneApproved(entries, floors, i, j) { assert OneApproved(entries, before, i, j); }
    }
  }

  // ---------- any mixture of captures, reviews and resets ----------

  datatype Call =
    | CaptureCall(base: Scope, source: ExecId, generation: nat, notes: seq<Note>)
    | ReviewCall(s: Scope, id: EntryId, decision: Status, version: nat, shown: bool)
    | ResetCall(session: SessionId)

  function NewIds(c: Call): set<EntryId> { if c.CaptureCall? then Ids(c.notes) else {} }

  // Entry identifiers are drawn fresh: no call reuses one of its own, of the store or of another call.
  ghost predicate FreshIds(calls: seq<Call>, taken: set<EntryId>) {
    && (forall k :: 0 <= k < |calls| ==> NewIds(calls[k]) !! taken)
    && (forall j, k :: 0 <= j < k < |calls| ==> NewIds(calls[j]) !! NewIds(calls[k]))
    && (forall k :: 0 <= k < |calls| && calls[k].CaptureCall? ==> DistinctIds(calls[k].notes))
  }

  ghost predicate DistinctIds(notes: seq<Note>) { forall i, j :: 0 <= i < j < |notes| ==> notes[i].id != notes[j].id }

  // One call; `used` is the entry and review version that a successful review consumed.
  method Perform(store: WikiStore, c: Call) returns (used: Option<(EntryId, nat)>)
    requires store.Valid() && NewIds(c) !! store.entries.Keys && (c.CaptureCall? ==> DistinctIds(c.notes))
    modifies store
    ensures store.Valid() && Evolves(old(store.entries), store.entries)
    ensures store.entries.Keys <= old(store.entries.Keys) + NewIds(c)
    ensures used.Some? ==> var (id, version) := used.value;
      id in old(store.entries) && old(store.entries)[id].version == version && store.entries[id].version == version + 1
  {
    used := None;
    match c {
      case CaptureCall(base, source, generation, notes) =>
        assert forall k :: 0 <= k < |notes| ==> notes[k].id in NewIds(c);
        store.Capture(base, source, generation, notes);
      case ReviewCall(s, id, decision, version, shown) =>
        var accepted := store.Review(s, id, decision, version, shown);
        if accepted { used := Some((id, version)); }
      case ResetCall(session) => store.Reset(session);
    }
  }

  // The used versions have been left behind.
  ghost predicate AllUsed(es: Entries, used: seq<(EntryId, nat)>) {
    forall k :: 0 <= k < |used| ==> used[k].0 in es && used[k].1 < es[used[k].0].version
  }

  lemma UsedStays(a: Entries, b: Entries, used: seq<(EntryId, nat)>)
    requires Evolves(a, b) && AllUsed(a, used)
    ensures AllUsed(b, used)
  {
    forall k | 0 <= k < |used| ensures used[k].0 in b && used[k].1 < b[used[k].0].version { assert used[k].0 in a; }
  }

  lemma EvolvesOn(a: Entries, b: Entries, c: Entries)
    requires Evolves(a, b) && Evolves(b, c)
    ensures Evolves(a, c)
  {
    forall i | i in a ensures i in c && a[i].scope == c[i].scope && a[i].revision == c[i].revision && a[i].row == c[i].row && a[i].version <= c[i].version {
      assert i in b;
    }
  }

  // Over any mixture of captures, reviews and resets the store stays ordered with one approved
  // version a topic, nothing is dropped, and no review version is consumed twice.
  method PerformAll(store: WikiStore, calls: seq<Call>) returns (used: seq<(EntryId, nat)>)
    requires store.Valid() && FreshIds(calls, store.entries.Keys)
    modifies store
    ensures store.Valid() && Evolves(old(store.entries), store.entries)
    ensures forall i, j {:trigger Ordered(store.entries, i, j)} :: Ordered(store.entries, i, j)
    ensures forall i, j {:trigger OneApproved(store.entries, store.floors, i, j)} :: OneApproved(store.entries, store.floors, i, j)
    ensures forall j, k :: 0 <= j < k < |used| ==> used[j] != used[k]
    ensures AllUsed(store.entries, used)
  {
    hide Evolves;
    used := [];
    ghost var taken := store.entries.Keys;
    EvolvesSelf(store.entries);
    for n := 0 to |calls|
      invariant store.Valid() && Evolves(old(store.entries), store.entries) && AllUsed(store.entries, used)
      invariant forall k :: n <= k < |calls| ==> NewIds(calls[k]) !! store.entries.Keys
      invariant forall j, k :: 0 <= j < k < |used| ==> used[j] != used[k]
    {
      ghost var before := store.entries;
      var one := Perform(store, calls[n]);
      UsedStays(before, store.entries, used);
      EvolvesOn(old(store.entries), before, store.entries);
      if one.Some? { used := used + [one.value]; }
    }
  }

  lemma EvolvesSelf(a: Entries)
    ensures Evolves(a, a)
  {
  }
}
