// The files of a workspace and what a reviewed plan means for them.
module WorkspaceFiles {
  import opened Options
  import opened FilePlans

  type Files = map<string, Bytes>

  function Lookup(files: Files, path: string): Option<Bytes> {
    if path in files then Some(files[path]) else None
  }

  function Put(files: Files, path: string, content: Option<Bytes>): Files {
    if content.Some? then files[path := content.value] else files - {path}
  }

  // Every planned file holds its reviewed preimage.
  predicate Intact(files: Files, changes: seq<Change>) {
    forall i :: 0 <= i < |changes| ==> Lookup(files, changes[i].path) == changes[i].before
  }

  // The plan's meaning, path by path: planned files hold their new content, every other
  // file is as it was.
  ghost predicate Means(base: Files, changes: seq<Change>, files: Files) {
    && (forall i :: 0 <= i < |changes| ==> Lookup(files, changes[i].path) == changes[i].after)
    && (forall q: string {:trigger Lookup(files, q)} :: !Planned(changes, q) ==> Lookup(files, q) == Lookup(base, q))
  }

  predicate Planned(changes: seq<Change>, q: string) { exists i :: 0 <= i < |changes| && changes[i].path == q }

  // The first `k` changes are made and no other.
  ghost predicate AfterFirst(base: Files, changes: seq<Change>, k: nat, files: Files) {
    && k <= |changes|
    && Means(base, changes[..k], files)
  }

  ghost predicate MidChange(c: Change, content: Option<Bytes>) {
    || content == c.before
    || content == c.after
    || (c.action.Create? && c.after.Some? && content.Some? && content.value <= c.after.value)
  }

  // What an interruption may leave behind: files before `k` are done, files past `k` are
  // untouched, and file `k` is before, after or, if it is being created, a prefix.
  ghost predicate Frontier(base: Files, changes: seq<Change>, k: nat, files: Files) {
    && k <= |changes|
    && (forall i :: 0 <= i < k ==> Lookup(files, changes[i].path) == changes[i].after)
    && (forall i :: k < i < |changes| ==> Lookup(files, changes[i].path) == changes[i].before)
    && (k < |changes| ==> MidChange(changes[k], Lookup(files, changes[k].path)))
    && (forall q: string {:trigger Lookup(files, q)} :: !Planned(changes, q) ==> Lookup(files, q) == Lookup(base, q))
  }

  lemma AfterFirstIsFrontier(base: Files, changes: seq<Change>, k: nat, files: Files)
    requires DistinctPaths(changes) && Intact(base, changes) && AfterFirst(base, changes, k, files)
    ensures Frontier(base, changes, k, files)
    ensures forall i :: k <= i < |changes| ==> Lookup(files, changes[i].path) == changes[i].before
  {
    var first := changes[..k];
    forall i | 0 <= i < k ensures Lookup(files, changes[i].path) == changes[i].after { assert first[i] == changes[i]; }
    forall i | k <= i < |changes| ensures Lookup(files, changes[i].path) == changes[i].before {
      assert !Planned(first, changes[i].path);
    }
    forall q: string | !Planned(changes, q) ensures Lookup(files, q) == Lookup(base, q) {
      if Planned(first, q) { FewerPlanned(changes, k, q); }
    }
  }

  lemma FewerPlanned(changes: seq<Change>, k: nat, q: string)
    requires k <= |changes| && Planned(changes[..k], q)
    ensures Planned(changes, q)
  {
    var j :| 0 <= j < k && changes[..k][j].path == q;
    assert changes[j].path == q;
  }

  lemma NothingDone(base: Files, changes: seq<Change>)
    ensures AfterFirst(base, changes, 0, base)
  {
  }

  // One change carried through.
  lemma OneMore(base: Files, changes: seq<Change>, k: nat, files: Files)
    requires DistinctPaths(changes) && k < |changes| && AfterFirst(base, changes, k, files)
    ensures AfterFirst(base, changes, k + 1, Put(files, changes[k].path, changes[k].after))
  {
    var done := Put(files, changes[k].path, changes[k].after);
    var a, b := changes[..k], changes[..k + 1];
    forall i | 0 <= i < |b| ensures Lookup(done, b[i].path) == b[i].after {
      if i < k { assert a[i] == b[i] && changes[i].path != changes[k].path; }
    }
    forall q: string | !Planned(b, q) ensures Lookup(done, q) == Lookup(base, q) {
      assert b[k].path != q;
      if Planned(a, q) {
        assert b[..k] == a;
        FewerPlanned(b, k, q);
      }
      assert Lookup(done, q) == Lookup(files, q);
    }
  }

  // One change caught in the middle.
  lemma CaughtAt(base: Files, changes: seq<Change>, k: nat, files: Files, now: Files)
    requires DistinctPaths(changes) && Intact(base, changes) && k < |changes| && AfterFirst(base, changes, k, files)
    requires MidChange(changes[k], Lookup(now, changes[k].path))
    requires forall q: string :: q != changes[k].path ==> Lookup(now, q) == Lookup(files, q)
    ensures Frontier(base, changes, k, now)
  {
    AfterFirstIsFrontier(base, changes, k, files);
    forall i | 0 <= i < |changes| && i != k ensures Lookup(now, changes[i].path) == Lookup(files, changes[i].path) {
      assert changes[i].path != changes[k].path;
    }
    forall q: string | !Planned(changes, q) ensures Lookup(now, q) == Lookup(base, q) {
      assert changes[k].path != q;
    }
  }

  // ---------- undoing with the journal ----------

  // Every journaled path gets its saved preimage back.
  function Rebuilt(files: Files, rows: seq<JournalRow>): Files {
    if rows == [] then files
    else Put(Rebuilt(files, rows[..|rows| - 1]), rows[|rows| - 1].path, rows[|rows| - 1].before)
  }

  lemma {:induction false} RebuiltAt(files: Files, rows: seq<JournalRow>, q: string)
    requires forall i, j :: 0 <= i < j < |rows| ==> rows[i].path != rows[j].path
    ensures forall i :: 0 <= i < |rows| && rows[i].path == q ==> Lookup(Rebuilt(files, rows), q) == rows[i].before
    ensures (forall i :: 0 <= i < |rows| ==> rows[i].path != q) ==> Lookup(Rebuilt(files, rows), q) == Lookup(files, q)
  {
    if rows != [] {
      var init := rows[..|rows| - 1];
      RebuiltAt(files, init, q);
      forall i | 0 <= i < |rows| && rows[i].path == q ensures Lookup(Rebuilt(files, rows), q) == rows[i].before {
        if i < |rows| - 1 { assert init[i] == rows[i]; }
      }
    }
  }

  // At every interruption point the journal rebuilds the whole original workspace.
  lemma JournalRebuilds(base: Files, changes: seq<Change>, k: nat, files: Files, rows: seq<JournalRow>)
    requires DistinctPaths(changes) && Intact(base, changes) && Frontier(base, changes, k, files)
    requires |rows| == |changes|
    requires forall i :: 0 <= i < |rows| ==> rows[i].path == changes[i].path && rows[i].before == changes[i].before
    ensures Rebuilt(files, rows) == base
  {
    var r := Rebuilt(files, rows);
    forall q: string ensures Lookup(r, q) == Lookup(base, q) {
      RebuiltAt(files, rows, q);
      if i :| 0 <= i < |changes| && changes[i].path == q {
        assert rows[i].path == q;
      } else {
        assert !Planned(changes, q);
      }
    }
    forall q: string ensures q in r <==> q in base { assert Lookup(r, q) == Lookup(base, q); }
    forall q: string | q in base ensures r[q] == base[q] { assert Lookup(r, q) == Lookup(base, q); }
  }

  // ---------- observing ----------

  datatype Observed = SeenAfter | SeenBefore | SeenDiverged

  function Observe(files: Files, c: Change): Observed {
    var content := Lookup(files, c.path);
    if content == c.after then SeenAfter else if content == c.before then SeenBefore else SeenDiverged
  }

  // Without outside edits only a file caught while it was being created can look diverged,
  // and the observation is complete exactly when the plan's meaning has been reached.
  lemma ObservedFrontier(base: Files, changes: seq<Change>, k: nat, files: Files)
    requires DistinctPaths(changes) && Frontier(base, changes, k, files)
    ensures forall i :: 0 <= i < |changes| && Observe(files, changes[i]).SeenDiverged? ==> i == k && changes[i].action.Create?
    ensures (forall i :: 0 <= i < |changes| ==> Observe(files, changes[i]).SeenAfter?) <==> Means(base, changes, files)
  {
  }
}
