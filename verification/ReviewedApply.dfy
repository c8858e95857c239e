// The journaled file apply as a process: between any two of its guarded sections other
// processes change the ledger and outside editors change files, and it can die anywhere.
module ReviewedApply {
  import opened Options
  import opened FilePlans
  import opened WorkspaceFiles
  import opened LedgerTypes
  import opened Transactions
  import opened LedgerInvariants
  import opened LedgerProofs
  import opened Protocol
  import opened LedgerStore
  import opened Controllers
  import opened WorkspaceLocks
  import CalmProofs

  // What the outside does before and at the n-th section: ledger transactions of others,
  // edits of files, the draft guard, the cancel event, the bytes one write accepts, failing
  // system calls, and the sections at which the process is killed.
  datatype World = World(
    moves: nat -> seq<Step>, edits: nat -> map<string, Option<Bytes>>, draft: nat -> bool,
    cancelled: nat -> bool, accepts: nat -> nat, fails: nat -> bool, dies: nat -> bool)

  ghost predicate Quiet(w: World) { forall n {:trigger w.edits(n)} :: w.edits(n) == map[] }

  // Nothing stops the apply: nobody edits files, cancels, fails a system call or kills the process,
  // the draft guard allows, and every write accepts something. What others do to the ledger keeps
  // `rely`, which opens the guard and which the journal marks keep too.
  ghost predicate Undisturbed(w: World, ws: Workspace, h: Holder, rely: Db -> bool) {
    && Quiet(w)
    && (forall n: nat :: w.draft(n) && !w.cancelled(n) && !w.fails(n) && !w.dies(n) && w.accepts(n) > 0)
    && (forall d :: rely(d) ==> MayTouch(d, h, PlanApplying, true))
    && (forall n: nat, d {:trigger After(d, w.moves(n))} :: n > 0 && Inv(d) && rely(d) ==> rely(After(d, w.moves(n))))
    && (forall i: nat, d {:trigger MarkJournal(d, ws, i)} :: Inv(d) && rely(d) ==> rely(MarkJournal(d, ws, i)))
  }

  lemma UndisturbedSection(w: World, ws: Workspace, h: Holder, rely: Db -> bool, n: nat, d: Db)
    requires Undisturbed(w, ws, h, rely)
    ensures Quiet(w) && w.draft(n) && !w.cancelled(n) && !w.fails(n) && !w.dies(n) && w.accepts(n) > 0
    ensures rely(d) ==> MayTouch(d, h, PlanApplying, true)
    ensures n > 0 && Inv(d) && rely(d) ==> rely(After(d, w.moves(n)))
    ensures Inv(d) && rely(d) ==> rely(MarkJournal(d, ws, n))
  {
    var e, f := After(d, w.moves(n)), MarkJournal(d, ws, n);
    hide Inv, MayTouch, Quiet, After, MarkJournal;
  }

  function Edited(files: Files, e: map<string, Option<Bytes>>): Files {
    map q | q in files.Keys + e.Keys && (q in e ==> e[q].Some?) :: if q in e then e[q].value else files[q]
  }

  lemma QuietEdit(w: World, n: nat, files: Files)
    ensures Quiet(w) ==> w.edits(n) == map[] && Edited(files, w.edits(n)) == files
  {
  }

  // How a section ends: it may go on, it raised, or the process is dead.
  datatype Signal = Go | Raised | Dead

  // One change of a file by the apply: what the path held just before and just after.
  datatype Mutation = Mutation(path: string, before: Option<Bytes>, after: Option<Bytes>)

  // The workspace as the apply changes it. Every change requires what the guard has just
  // established: the ledger, as it is now, lets this holder touch files.
  class Tree {
    var files: Files
    var temps: map<nat, Bytes>
    ghost var log: seq<Mutation>

    constructor (content: Files)
      ensures files == content && temps == map[] && log == []
    {
      files, temps, log := content, map[], [];
    }

    method OutsideEdit(e: map<string, Option<Bytes>>)
      modifies this`files
      ensures files == Edited(old(files), e)
    {
      files := Edited(files, e);
    }

    method Unlink(path: string, ghost l: Ledger, ghost h: Holder)
      requires l.Valid() && MayTouch(l.db, h, PlanApplying, true) && path in files
      modifies this`files, this`log
      ensures files == old(files) - {path} && log == old(log) + [Mutation(path, Some(old(files)[path]), None)]
    {
      log := log + [Mutation(path, Some(files[path]), None)];
      files := files - {path};
    }

    method CreateExclusive(path: string, ghost l: Ledger, ghost h: Holder) returns (created: bool)
      requires l.Valid() && MayTouch(l.db, h, PlanApplying, true)
      modifies this`files, this`log
      ensures created == (path !in old(files)) && files == if created then old(files)[path := []] else old(files)
      ensures log == if created then old(log) + [Mutation(path, None, Some([]))] else old(log)
    {
      created := path !in files;
      if created {
        log := log + [Mutation(path, None, Some([]))];
        files := files[path := []];
      }
    }

    method Append(path: string, data: Bytes, ghost l: Ledger, ghost h: Holder)
      requires l.Valid() && MayTouch(l.db, h, PlanApplying, true) && path in files
      modifies this`files, this`log
      ensures files == old(files)[path := old(files)[path] + data]
      ensures log == old(log) + [Mutation(path, Some(old(files)[path]), Some(old(files)[path] + data))]
    {
      log := log + [Mutation(path, Some(files[path]), Some(files[path] + data))];
      files := files[path := files[path] + data];
    }

    method OpenTemp(i: nat, ghost l: Ledger, ghost h: Holder) returns (created: bool)
      requires l.Valid() && MayTouch(l.db, h, PlanApplying, true)
      modifies this`temps
      ensures created == (i !in old(temps)) && temps == if created then old(temps)[i := []] else old(temps)
    {
      created := i !in temps;
      if created { temps := temps[i := []]; }
    }

    method AppendTemp(i: nat, data: Bytes, ghost l: Ledger, ghost h: Holder)
      requires l.Valid() && MayTouch(l.db, h, PlanApplying, true) && i in temps
      modifies this`temps
      ensures temps == old(temps)[i := old(temps)[i] + data]
    {
      temps := temps[i := temps[i] + data];
    }

    method Replace(i: nat, path: string, ghost l: Ledger, ghost h: Holder)
      requires l.Valid() && MayTouch(l.db, h, PlanApplying, true) && i in temps && path in files
      modifies this`files, this`temps, this`log
      ensures files == old(files)[path := old(temps)[i]] && temps == old(temps) - {i}
      ensures log == old(log) + [Mutation(path, Some(old(files)[path]), Some(old(temps)[i]))]
    {
      log := log + [Mutation(path, Some(files[path]), Some(temps[i]))];
      files, temps := files[path := temps[i]], temps - {i};
    }

    method RemoveTemp(i: nat, ghost l: Ledger, ghost h: Holder)
      requires l.Valid() && MayTouch(l.db, h, PlanApplying, true)
      modifies this`temps
      ensures temps == old(temps) - {i}
    {
      temps := temps - {i};
    }
  }

  // What change `c` may do to its file, whatever others do meanwhile: delete or replace exactly
  // the reviewed preimage, the latter by exactly the reviewed content; open a new file only
  // where there is none; and lengthen the reviewed part of a file that `last` left so.
  ghost predicate Allowed(c: Change, last: Option<Mutation>, m: Mutation) {
    && m.path == c.path
    && if c.action.Create? then
         && m.after.Some? && c.after.Some? && m.after.value <= c.after.value
         && if m.before.None? then m.after.value == []
            else m.before.value <= m.after.value && last.Some? && last.value.path == m.path && last.value.after == m.before
       else m.before == c.before && m.after == c.after
  }

  ghost function Previous(log: seq<Mutation>, k: nat): Option<Mutation>
    requires k <= |log|
  {
    if k == 0 then None else Some(log[k - 1])
  }

  ghost predicate PlannedAt(changes: seq<Change>, log: seq<Mutation>, k: nat)
    requires k < |log|
  {
    exists i :: 0 <= i < |changes| && Allowed(changes[i], Previous(log, k), log[k])
  }

  // Every mutation in the log is one that the plan allows there.
  ghost predicate AllPlanned(changes: seq<Change>, log: seq<Mutation>) { forall k :: 0 <= k < |log| ==> PlannedAt(changes, log, k) }

  // A creation never overwrites: whatever the apply writes to such a path, outside edits or not,
  // it writes to what it created there itself, without a gap.
  lemma {:induction false} WritesOwnFile(changes: seq<Change>, log: seq<Mutation>, k: nat) returns (j: nat)
    requires ValidPlan(changes) && AllPlanned(changes, log) && k < |log|
    requires exists i :: 0 <= i < |changes| && changes[i].path == log[k].path && changes[i].action.Create?
    ensures j <= k && log[j] == Mutation(log[k].path, None, Some([]))
    ensures forall n :: j < n <= k ==> log[n].path == log[k].path && log[n].before == log[n - 1].after
  {
    var i :| 0 <= i < |changes| && changes[i].path == log[k].path && changes[i].action.Create?;
    assert PlannedAt(changes, log, k);
    var c :| 0 <= c < |changes| && Allowed(changes[c], Previous(log, k), log[k]);
    assert c == i;
    if log[k].before.None? { j := k; } else { j := WritesOwnFile(changes, log, k - 1); }
  }

  // Temporary files other than that of change `i` are as they were, and that one, if it is new,
  // holds a beginning of the change's content.
  ghost predicate TempsKept(a: map<nat, Bytes>, b: map<nat, Bytes>, i: nat, c: Change) {
    && (forall j {:trigger j in b} :: j != i ==> (j in a <==> j in b) && (j in a ==> b[j] == a[j]))
    && (i in a ==> i in b && b[i] == a[i])
    && (i in b && i !in a ==> c.action.Modify? && c.after.Some? && b[i] <= c.after.value)
  }

  lemma OwnTemp(a: map<nat, Bytes>, b: map<nat, Bytes>, i: nat, c: Change)
    requires i !in a && b - {i} == a - {i} && c.action.Modify? && (i in b ==> c.after.Some? && b[i] <= c.after.value)
    ensures TempsKept(a, b, i, c) && b - {i} == a && (i !in b ==> b == a)
  {
    forall j | j != i ensures (j in a <==> j in b) && (j in a ==> b[j] == a[j]) {
      assert j in b - {i} <==> j in b;
      assert j in a - {i} <==> j in a;
      if j in a { assert (b - {i})[j] == (a - {i})[j]; }
    }
  }

  // The two workspaces agree on every other path.
  ghost predicate Elsewhere(a: Files, b: Files, path: string) {
    forall q: string {:trigger Lookup(b, q)} :: q != path ==> Lookup(b, q) == Lookup(a, q)
  }

  lemma PutElsewhere(a: Files, b: Files, path: string, content: Bytes)
    requires Elsewhere(a, b, path)
    ensures Elsewhere(a, b[path := content], path) && Elsewhere(a, b - {path}, path)
  {
    forall q: string | q != path
      ensures Lookup(b[path := content], q) == Lookup(a, q) && Lookup(b - {path}, q) == Lookup(a, q)
    {
      assert Lookup(b, q) == Lookup(a, q);
    }
  }

  // What carrying out one change may do to the files when nobody else edits them.
  ghost predicate Carried(c: Change, a: Files, b: Files, s: Signal) {
    && Elsewhere(a, b, c.path)
    && (Lookup(a, c.path) == c.before ==> MidChange(c, Lookup(b, c.path)))
    && (s.Go? ==> Lookup(a, c.path) == c.before && Lookup(b, c.path) == c.after)
  }

  // The running apply of one plan, from the moment it holds the workspace lock.
  class Process {
    const l: Ledger
    const tree: Tree
    const w: World
    const h: Holder
    const ws: Workspace
    const changes: seq<Change>
    ghost const rely: Db -> bool
    ghost const began: Db
    ghost const from: nat
    var n: nat
    var target: string
    var linked: bool

    ghost predicate Valid()
      reads this, l, tree
    {
      && l.Valid() && Inv(began) && Evolves(began, l.db) && Holds(l.db, ws, h)
      && h.plan in began.plans && began.plans[h.plan].changes == changes && began.plans[h.plan].workspace == ws
      && ValidPlan(changes) && (forall k: nat :: k > 0 ==> AllForeign(w.moves(k), ws))
      && from <= |tree.log| && AllPlanned(changes, tree.log[from..])
    }

    // The guard is open and nothing will close it.
    ghost predicate Smooth()
      reads this, l
    {
      Undisturbed(w, ws, h, rely) && rely(l.db)
    }

    constructor (l: Ledger, tree: Tree, w: World, h: Holder, ws: Workspace, changes: seq<Change>, n: nat, ghost rely: Db -> bool)
      requires l.Valid() && Holds(l.db, ws, h) && h.plan in l.db.plans
      requires l.db.plans[h.plan].changes == changes && l.db.plans[h.plan].workspace == ws && ValidPlan(changes)
      requires forall k: nat :: k > 0 ==> AllForeign(w.moves(k), ws)
      ensures Valid() && this.l == l && this.tree == tree && this.w == w && this.h == h && this.ws == ws && this.changes == changes && this.rely == rely
      ensures began == l.db && from == |tree.log|
    {
      hide Inv, ValidPlan, Holds;
      this.l, this.tree, this.w, this.h, this.ws, this.changes, this.n, this.rely := l, tree, w, h, ws, changes, n, rely;
      began, from := l.db, |tree.log|;
      target, linked := "", false;
      new;
      KeepsSelf(l.db);
    }

    // The rest of the world moves; then this process goes on, unless it has been killed.
    method Pause() returns (s: Signal)
      requires Valid()
      modifies l, tree`files, this`n, this`linked
      ensures Valid() && !s.Raised? && n == old(n) + 1 && (s.Dead? <==> w.dies(n))
      ensures Progress(l.db, h.plan) == old(Progress(l.db, h.plan))
      ensures old(Smooth()) ==> s.Go? && Smooth()
      ensures Quiet(w) ==> tree.files == old(tree.files) && linked == old(linked)
      ensures linked ==> old(linked) && (target in tree.files <==> target in old(tree.files))
      ensures linked && target in tree.files ==> tree.files[target] == old(tree.files)[target]
    {
      hide Inv, Evolves, Holds, ValidPlan, After, AllPlanned, AllForeign, Quiet, Undisturbed, MayTouch, Progress;
      n := n + 1;
      QuietEdit(w, n, tree.files);
      ghost var d := l.db;
      if Smooth() { UndisturbedSection(w, ws, h, rely, n, d); }
      if w.dies(n) { return Dead; }
      Others(l, w.moves(n));
      EvolvesTransitive(began, d, l.db);
      OthersKeepLock(d, w.moves(n), ws, h);
      OthersKeepProgress(d, w.moves(n), ws, h);
      tree.OutsideEdit(w.edits(n));
      if target in w.edits(n) { linked := false; }
      return Go;
    }

    // `mutation_guard`: the ownership check made afresh under the ledger's write lock.
    method Guard() returns (s: Signal)
      requires Valid()
      modifies l, tree`files, this`n, this`linked
      ensures Valid() && n == old(n) + 1 && (s.Dead? <==> w.dies(n))
      ensures Progress(l.db, h.plan) == old(Progress(l.db, h.plan))
      ensures s.Go? <==> !w.dies(n) && !w.cancelled(n) && MayTouch(l.db, h, PlanApplying, w.draft(n))
      ensures s.Go? ==> MayTouch(l.db, h, PlanApplying, true)
      ensures old(Smooth()) ==> s.Go? && Smooth()
      ensures Quiet(w) ==> tree.files == old(tree.files) && linked == old(linked)
      ensures linked ==> old(linked) && (target in tree.files <==> target in old(tree.files))
      ensures linked && target in tree.files ==> tree.files[target] == old(tree.files)[target]
    {
      hide Inv, Evolves, Holds, ValidPlan, AllPlanned, AllForeign, Quiet, Owns, Undisturbed, Progress;
      s := Pause();
      if Smooth() { UndisturbedSection(w, ws, h, rely, n, l.db); }
      if s.Go? && (w.cancelled(n) || !MayTouch(l.db, h, PlanApplying, w.draft(n))) { s := Raised; }
    }

    // ---------- the three kinds of change ----------

    method DeleteFile(i: nat) returns (s: Signal)
      requires Valid() && i < |changes| && changes[i].action.Delete?
      modifies l, tree`files, tree`log, this`n, this`linked
      ensures Valid() && (s.Dead? ==> w.dies(n))
      ensures Progress(l.db, h.plan) == old(Progress(l.db, h.plan))
      ensures Quiet(w) ==> Carried(changes[i], old(tree.files), tree.files, s)
      ensures tree.log == if s.Go? then old(tree.log) + [Mutation(changes[i].path, changes[i].before, None)] else old(tree.log)
      ensures old(Smooth() && Lookup(tree.files, changes[i].path) == changes[i].before) ==> s.Go? && Smooth()
    {
      hide Inv, Evolves, Holds, AllForeign, Quiet, MayTouch, Undisturbed, Progress;
      var c := changes[i];
      WellFormedAt(changes, i);
      SmoothIsQuiet();
      s := Guard();
      if !s.Go? { return; }
      if Lookup(tree.files, c.path) != c.before { return Raised; }
      LogMore(changes, tree.log, from, i, Mutation(c.path, Some(tree.files[c.path]), None));
      tree.Unlink(c.path, l, h);
    }

    // A new file is opened exclusively and then written in pieces of any size. As long as nobody
    // else edits that path it holds a prefix of its content, and all of it in the end.
    method CreateFile(i: nat) returns (s: Signal)
      requires Valid() && i < |changes| && changes[i].action.Create?
      modifies l, tree`files, tree`log, this`n, this`linked, this`target
      ensures Valid() && (s.Dead? ==> w.dies(n))
      ensures Progress(l.db, h.plan) == old(Progress(l.db, h.plan))
      ensures old(Smooth() && Lookup(tree.files, changes[i].path) == changes[i].before) ==> s.Go? && Smooth()
      ensures s.Go? ==> target == changes[i].path
      ensures target == changes[i].path && linked && target in tree.files && tree.log != old(tree.log) ==>
        changes[i].after.Some? && tree.files[target] <= changes[i].after.value && (s.Go? ==> tree.files[target] == changes[i].after.value)
      ensures Quiet(w) ==> Carried(changes[i], old(tree.files), tree.files, s)
    {
      hide Inv, Evolves, Holds, AllForeign, AllPlanned, Quiet, MayTouch, ValidPlan, Elsewhere, Undisturbed, Progress;
      var c := changes[i];
      WellFormedAt(changes, i);
      SmoothIsQuiet();
      ghost var a := tree.files;
      SameElsewhere(a, c.path);
      s := Guard();
      if !s.Go? { return; }
      SameElsewhere(tree.files, c.path);
      PutElsewhere(tree.files, tree.files, c.path, []);
      ghost var log := tree.log;
      var created := tree.CreateExclusive(c.path, l, h);
      if !created { return Raised; }
      LogMore(changes, log, from, i, Mutation(c.path, None, Some([])));
      target, linked := c.path, true;
      s := WriteNew(a, i, c.path, c.after.value);
    }

    // The last mutation left `path` with `content`.
    ghost predicate LeftAt(path: string, content: Bytes)
      reads this, tree
    {
      from < |tree.log| && tree.log[|tree.log| - 1].path == path && tree.log[|tree.log| - 1].after == Some(content)
    }

    method WriteNew(ghost a: Files, ghost i: nat, path: string, data: Bytes) returns (s: Signal)
      requires Valid() && target == path && linked && Lookup(tree.files, path) == Some([]) && LeftAt(path, [])
      requires i < |changes| && changes[i].action.Create? && changes[i].path == path && changes[i].after == Some(data)
      requires Quiet(w) ==> Elsewhere(a, tree.files, path)
      modifies l, tree`files, tree`log, this`n, this`linked
      ensures Valid() && (s.Dead? ==> w.dies(n)) && (old(Smooth()) ==> s.Go? && Smooth())
      ensures Progress(l.db, h.plan) == old(Progress(l.db, h.plan))
      ensures linked && path in tree.files ==> tree.files[path] <= data && (s.Go? ==> tree.files[path] == data)
      ensures Quiet(w) ==>
        && Elsewhere(a, tree.files, path)
        && Lookup(tree.files, path).Some? && Lookup(tree.files, path).value <= data && (s.Go? ==> Lookup(tree.files, path).value == data)
    {
      hide Inv, Evolves, Holds, AllForeign, AllPlanned, Quiet, MayTouch, ValidPlan, Elsewhere, Undisturbed, Progress;
      ghost var smooth := Smooth();
      var offset := 0;
      while offset < |data|
        invariant offset <= |data| && Valid() && target == path && (smooth ==> Smooth())
        invariant Progress(l.db, h.plan) == old(Progress(l.db, h.plan))
        invariant linked ==> path in tree.files && tree.files[path] == data[..offset] && LeftAt(path, data[..offset])
        invariant Quiet(w) ==> linked && Elsewhere(a, tree.files, path)
      {
        s := Guard();
        if !s.Go? { return; }
        if smooth { UndisturbedSection(w, ws, h, rely, n, l.db); }
        var size := if w.accepts(n) < |data| - offset then w.accepts(n) else |data| - offset;
        if size == 0 { return Raised; }
        if linked {
          if Quiet(w) { PutElsewhere(a, tree.files, path, data[..offset + size]); }
          assert data[..offset] + data[offset..offset + size] == data[..offset + size];
          LogMore(changes, tree.log, from, i, Mutation(path, Some(data[..offset]), Some(data[..offset + size])));
          tree.Append(path, data[offset..offset + size], l, h);
        }
        offset := offset + size;
      }
      assert data[..offset] == data;
      s := Guard();
    }

    method WriteTemp(i: nat, data: Bytes) returns (s: Signal)
      requires Valid() && i in tree.temps && tree.temps[i] == []
      modifies l, tree`files, tree`temps, this`n, this`linked
      ensures Valid() && (s.Dead? ==> w.dies(n)) && (old(Smooth()) ==> s.Go? && Smooth())
      ensures Progress(l.db, h.plan) == old(Progress(l.db, h.plan))
      ensures i in tree.temps && tree.temps[i] <= data && (s.Go? ==> tree.temps[i] == data)
      ensures tree.temps == old(tree.temps)[i := tree.temps[i]]
      ensures Quiet(w) ==> tree.files == old(tree.files)
    {
      hide Inv, Evolves, Holds, AllForeign, AllPlanned, Quiet, MayTouch, ValidPlan, Undisturbed, Progress;
      ghost var smooth := Smooth();
      var offset := 0;
      while offset < |data|
        invariant (smooth ==> Smooth()) && Progress(l.db, h.plan) == old(Progress(l.db, h.plan))
        invariant offset <= |data| && Valid() && i in tree.temps && tree.temps[i] == data[..offset]
        invariant tree.temps == old(tree.temps)[i := tree.temps[i]]
        invariant tree.log == old(tree.log) && (Quiet(w) ==> tree.files == old(tree.files))
      {
        s := Guard();
        if !s.Go? { return; }
        if smooth { UndisturbedSection(w, ws, h, rely, n, l.db); }
        var size := if w.accepts(n) < |data| - offset then w.accepts(n) else |data| - offset;
        if size == 0 { return Raised; }
        assert data[..offset] + data[offset..offset + size] == data[..offset + size];
        tree.AppendTemp(i, data[offset..offset + size], l, h);
        offset := offset + size;
      }
      assert data[..offset] == data;
      s := Guard();
    }

    // The new content is written beside the file, which is replaced in one guarded step.
    method ReplaceFile(i: nat) returns (s: Signal)
      requires Valid() && i < |changes| && changes[i].action.Modify? && i in tree.temps && tree.temps[i] == []
      modifies l, tree`files, tree`temps, tree`log, this`n, this`linked
      ensures Valid() && (s.Dead? ==> w.dies(n)) && tree.temps - {i} == old(tree.temps) - {i} && (s.Go? ==> i !in tree.temps)
      ensures Progress(l.db, h.plan) == old(Progress(l.db, h.plan))
      ensures tree.log == if s.Go? then old(tree.log) + [Mutation(changes[i].path, changes[i].before, changes[i].after)] else old(tree.log)
      ensures old(Smooth() && Lookup(tree.files, changes[i].path) == changes[i].before) ==> s.Go? && Smooth()
      ensures i in tree.temps ==> changes[i].after.Some? && tree.temps[i] <= changes[i].after.value
      ensures Quiet(w) ==> Carried(changes[i], old(tree.files), tree.files, s)
    {
      hide Inv, Evolves, Holds, AllForeign, Quiet, MayTouch, Elsewhere, AllPlanned, Undisturbed, Progress;
      var c := changes[i];
      WellFormedAt(changes, i);
      hide ValidPlan;
      SameElsewhere(tree.files, c.path);
      SmoothIsQuiet();
      s := Guard();
      if !s.Go? { return; }
      if Smooth() { UndisturbedSection(w, ws, h, rely, n, l.db); }
      if c.path !in tree.files || w.fails(n) { return Raised; }
      s := WriteTemp(i, c.after.value);
      if !s.Go? { return; }
      s := Guard();
      if !s.Go? { return; }
      if Lookup(tree.files, c.path) != c.before { return Raised; }
      SameElsewhere(tree.files, c.path);
      PutElsewhere(tree.files, tree.files, c.path, c.after.value);
      LogMore(changes, tree.log, from, i, Mutation(c.path, Some(tree.files[c.path]), Some(tree.temps[i])));
      tree.Replace(i, c.path, l, h);
    }

    // The clean-up of the temporary file is guarded too: losing ownership leaves it behind.
    method ModifyFile(i: nat) returns (s: Signal)
      requires Valid() && i < |changes| && changes[i].action.Modify?
      modifies l, tree`files, tree`temps, tree`log, this`n, this`linked
      ensures Valid() && (s.Dead? ==> w.dies(n))
      ensures Progress(l.db, h.plan) == old(Progress(l.db, h.plan))
      ensures TempsKept(old(tree.temps), tree.temps, i, changes[i]) && (s.Go? ==> tree.temps == old(tree.temps))
      ensures Quiet(w) ==> Carried(changes[i], old(tree.files), tree.files, s)
      ensures old(Smooth() && i !in tree.temps && Lookup(tree.files, changes[i].path) == changes[i].before) ==> s.Go? && Smooth()
      // A live process leaves the temporary file behind only if it may no longer touch anything.
      ensures s.Raised? && tree.temps != old(tree.temps) ==> w.cancelled(n) || !MayTouch(l.db, h, PlanApplying, w.draft(n))
    {
      hide Inv, Evolves, Holds, AllForeign, Quiet, MayTouch, Elsewhere, AllPlanned, ValidPlan, Undisturbed, Progress;
      SameElsewhere(tree.files, changes[i].path);
      SmoothIsQuiet();
      s := Guard();
      if !s.Go? { return; }
      var created := tree.OpenTemp(i, l, h);
      if !created { return Raised; }
      ghost var temps := old(tree.temps);
      s := ReplaceFile(i);
      OwnTemp(temps, tree.temps, i, changes[i]);
      if s.Dead? { return; }
      var cleanup := Guard();
      if cleanup.Dead? { return Dead; }
      if cleanup.Go? { tree.RemoveTemp(i, l, h); }
    }

    // One change of the plan: a first look, the change itself, and the journal mark.
    method ChangeOne(i: nat) returns (s: Signal)
      requires Valid() && i < |changes|
      modifies l, tree`files, tree`temps, tree`log, this`n, this`linked, this`target
      ensures Valid() && (s.Dead? ==> w.dies(n))
      ensures Progress(l.db, h.plan) == if s.Go? then WithMark(old(Progress(l.db, h.plan)), i) else old(Progress(l.db, h.plan))
      ensures TempsKept(old(tree.temps), tree.temps, i, changes[i]) && (s.Go? ==> tree.temps == old(tree.temps))
      ensures Quiet(w) ==> Carried(changes[i], old(tree.files), tree.files, s)
      ensures old(Smooth() && i !in tree.temps && Lookup(tree.files, changes[i].path) == changes[i].before) ==> s.Go? && Smooth()
    {
      hide Inv, Evolves, Holds, AllForeign, Quiet, MayTouch, Elsewhere, AllPlanned, ValidPlan, Undisturbed, Progress;
      var c := changes[i];
      SameElsewhere(tree.files, c.path);
      SmoothIsQuiet();
      s := Pause();
      if !s.Go? { return; }
      if Smooth() { UndisturbedSection(w, ws, h, rely, n, l.db); }
      if w.cancelled(n) || w.fails(n) || Lookup(tree.files, c.path) != c.before { return Raised; }
      match c.action {
        case Delete => s := DeleteFile(i);
        case Create => s := CreateFile(i);
        case Modify => s := ModifyFile(i);
      }
      if !s.Go? { return; }
      s := Guard();
      if !s.Go? { return; }
      s := Mark(i);
    }

    lemma SmoothIsQuiet()
      ensures Smooth() ==> Quiet(w)
    {
      hide Quiet, MayTouch;
    }

    method Mark(i: nat) returns (s: Signal)
      requires Valid()
      modifies l, tree`files, this`n, this`linked
      requires i < |changes|
      ensures Valid() && (s.Dead? <==> w.dies(n)) && !s.Raised? && n == old(n) + 1
      ensures Progress(l.db, h.plan) == if s.Go? then WithMark(old(Progress(l.db, h.plan)), i) else old(Progress(l.db, h.plan))
      ensures old(Smooth()) ==> s.Go? && Smooth()
      ensures Quiet(w) ==> tree.files == old(tree.files)
    {
      hide Inv, Evolves, ValidPlan, AllPlanned, AllForeign, Quiet, Undisturbed, MayTouch, Progress;
      s := Pause();
      if !s.Go? { return; }
      ghost var d := l.db;
      if Smooth() { UndisturbedSection(w, ws, h, rely, i, d); }
      CalmProofs.MarkJournalKeeps(d, ws, i);
      MarksProgress(d, ws, h, i);
      l.MarkApplied(ws, i);
      EvolvesTransitive(began, d, l.db);
    }

    // All changes in order; `k` is how far the apply got.
    method ChangeAll() returns (s: Signal, ghost k: nat)
      requires Valid() && Intact(tree.files, changes)
      modifies l, tree`files, tree`temps, tree`log, this`n, this`linked, this`target
      ensures Valid() && (s.Dead? ==> w.dies(n))
      ensures old(Smooth() && forall i: nat :: i < |changes| ==> i !in tree.temps) ==> s.Go? && Smooth()
      ensures k <= |changes| && (s.Go? ==> k == |changes|)
      ensures (forall j :: 0 <= j < |old(Progress(l.db, h.plan))| ==> !old(Progress(l.db, h.plan))[j].applied) ==> MarkedTo(Progress(l.db, h.plan), k)
      ensures if s.Go? then tree.temps == old(tree.temps) else k < |changes| && TempsKept(old(tree.temps), tree.temps, k, changes[k])
      ensures Quiet(w) ==> if s.Go? then AfterFirst(old(tree.files), changes, |changes|, tree.files)
                           else Frontier(old(tree.files), changes, k, tree.files)
    {
      hide Inv, Evolves, Holds, AllForeign, Quiet, MayTouch, Elsewhere, AllPlanned, AfterFirst, Frontier, Carried, Intact, Undisturbed, Progress;
      ghost var base := tree.files;
      SmoothIsQuiet();
      var i := 0;
      NothingDone(base, changes);
      while i < |changes|
        invariant old(Smooth() && forall i: nat :: i < |changes| ==> i !in tree.temps) ==> Smooth()
        invariant i <= |changes| && ((forall j :: 0 <= j < |old(Progress(l.db, h.plan))| ==> !old(Progress(l.db, h.plan))[j].applied) ==> MarkedTo(Progress(l.db, h.plan), i))
        invariant i <= |changes| && Valid() && tree.temps == old(tree.temps) && (Quiet(w) ==> AfterFirst(base, changes, i, tree.files))
      {
        ghost var a := tree.files;
        if Quiet(w) { NextHoldsPreimage(base, changes, i, a); }
        s := ChangeOne(i);
        if Quiet(w) { CarriedOn(base, changes, i, a, tree.files, s); }
        if !s.Go? { k := i; return; }
        i := i + 1;
      }
      s, k := Go, i;
    }
  }

  // The row of change `i` is marked.
  function WithMark(rows: seq<JournalRow>, i: nat): seq<JournalRow> { if i < |rows| then rows[i := rows[i].(applied := true)] else rows }

  // Exactly the first `k` rows are marked.
  ghost predicate MarkedTo(rows: seq<JournalRow>, k: nat) { forall j :: 0 <= j < |rows| ==> (rows[j].applied <==> j < k) }

  lemma MarksProgress(d: Db, ws: Workspace, h: Holder, i: nat)
    requires Inv(d) && Holds(d, ws, h)
    ensures Progress(MarkJournal(d, ws, i), h.plan) == WithMark(Progress(d, h.plan), i)
  {
    HeldIsJournaled(d, ws, h);
    hide Inv;
  }

  lemma NextHoldsPreimage(base: Files, changes: seq<Change>, i: nat, a: Files)
    requires ValidPlan(changes) && Intact(base, changes) && i < |changes| && AfterFirst(base, changes, i, a)
    ensures Lookup(a, changes[i].path) == changes[i].before
  {
    AfterFirstIsFrontier(base, changes, i, a);
  }

  lemma SameElsewhere(a: Files, path: string)
    ensures Elsewhere(a, a, path)
  {
  }

  lemma WellFormedAt(changes: seq<Change>, i: nat)
    requires ValidPlan(changes) && i < |changes|
    ensures WellFormed(changes[i])
  {
  }

  lemma LogMore(changes: seq<Change>, log: seq<Mutation>, from: nat, i: nat, m: Mutation)
    requires from <= |log| && AllPlanned(changes, log[from..])
    requires i < |changes| && Allowed(changes[i], Previous(log[from..], |log| - from), m)
    ensures AllPlanned(changes, (log + [m])[from..])
  {
    var a, b := log[from..], (log + [m])[from..];
    assert b == a + [m];
    forall k | 0 <= k < |b| ensures PlannedAt(changes, b, k) {
      assert k < |a| ==> PlannedAt(changes, a, k);
      assert Previous(b, k) == Previous(a, k);
      if k == |a| { assert Allowed(changes[i], Previous(b, k), b[k]); }
    }
  }

  lemma CarriedOn(base: Files, changes: seq<Change>, i: nat, a: Files, b: Files, s: Signal)
    requires ValidPlan(changes) && Intact(base, changes) && i < |changes| && AfterFirst(base, changes, i, a)
    requires Carried(changes[i], a, b, s)
    ensures s.Go? ==> AfterFirst(base, changes, i + 1, b)
    ensures Frontier(base, changes, i, b)
  {
    AfterFirstIsFrontier(base, changes, i, a);
    CaughtAt(base, changes, i, a, b);
    if s.Go? {
      OneMore(base, changes, i, a);
      var done := Put(a, changes[i].path, changes[i].after);
      forall q: string ensures Lookup(b, q) == Lookup(done, q) {}
      SameLookups(b, done);
    }
  }

  lemma SameLookups(a: Files, b: Files)
    requires forall q: string :: Lookup(a, q) == Lookup(b, q)
    ensures a == b
  {
    forall q: string ensures q in a <==> q in b { assert Lookup(a, q) == Lookup(b, q); }
    forall q: string | q in a ensures a[q] == b[q] { assert Lookup(a, q) == Lookup(b, q); }
  }

  // The preimages are read one after the other before anything is journaled.
  method ReadPreimages(tree: Tree, changes: seq<Change>) returns (intact: bool)
    ensures intact == Intact(tree.files, changes)
  {
    var i := 0;
    while i < |changes|
      invariant i <= |changes| && forall j :: 0 <= j < i ==> Lookup(tree.files, changes[j].path) == changes[j].before
    {
      if Lookup(tree.files, changes[i].path) != changes[i].before { return false; }
      i := i + 1;
    }
    return true;
  }

  // The plan was refused before anything was journaled, was applied, raised on the way, or
  // the process died while holding the workspace lock.
  datatype Ending = NotStarted | Applied | Uncertain | Died

  lemma BegunFacts(d: Db, r: Record, p: PlanId, owner: Owner, draft: bool, intact: bool)
    requires Inv(d) && CanBegin(d, r, p, owner, draft, intact)
    ensures var e := BeginApply(d, r, p, owner, draft, intact);
      && intact && p in d.plans && ValidPlan(d.plans[p].changes)
      && p in e.plans && e.plans[p].changes == d.plans[p].changes && e.plans[p].workspace == d.plans[p].workspace
      && MarkedTo(Progress(e, p), 0) && Holds(e, d.plans[p].workspace, Holder(r, p, owner))
  {
    assert PlanRow(d, p);
  }

  lemma PlanStays(d: Db, e: Db, p: PlanId)
    requires Evolves(d, e) && p in d.plans
    ensures p in e.plans && e.plans[p].changes == d.plans[p].changes && e.plans[p].workspace == d.plans[p].workspace
      && e.plans[p].owner == d.plans[p].owner
  {
    assert PlanRowMoves(d, e, p);
  }

  // While the lock is held the plan is applying, so each way out sets the status it should.
  lemma EndingStatus(d: Db, ws: Workspace, h: Holder, draft: bool)
    requires Inv(d) && Holds(d, ws, h)
    ensures h.plan in d.plans && d.plans[h.plan].status.PlanApplying?
    ensures FailApply(d, ws).plans == d.plans[h.plan := d.plans[h.plan].(status := PlanUncertain)]
    ensures MayTouch(d, h, PlanApplying, draft) ==>
      CommitApply(d, ws, draft).plans == d.plans[h.plan := d.plans[h.plan].(status := PlanApplied)]
    ensures CrashApply(d, ws).plans == d.plans
    ensures ReleasesLock(d, FailApply(d, ws), ws, h) && ReleasesLock(d, CrashApply(d, ws), ws, h)
    ensures MayTouch(d, h, PlanApplying, draft) ==> ReleasesLock(d, CommitApply(d, ws, draft), ws, h)
  {
    assert LockRow(d, ws);
  }

  // The way out leaves the journal and drops the lock.
  ghost predicate ReleasesLock(d: Db, e: Db, ws: Workspace, h: Holder) {
    ws !in e.locks && Progress(e, h.plan) == Progress(d, h.plan)
  }

  lemma JournalStands(d: Db, p: PlanId, base: Files, changes: seq<Change>, k: nat, files: Files)
    requires Inv(d) && p in d.plans && d.plans[p].changes == changes && BegunPlan(d.plans[p].status)
    requires Intact(base, changes) && Frontier(base, changes, k, files)
    ensures p in d.journal && Rebuilt(files, d.journal[p]) == base
  {
    assert PlanRow(d, p);
    JournalRebuilds(base, changes, k, files, d.journal[p]);
  }

  // A completed apply leaves no temporary file; any other ending at most that of change `k`.
  ghost predicate TempsEnd(a: map<nat, Bytes>, b: map<nat, Bytes>, out: Ending, changes: seq<Change>, k: nat) {
    b == a || (!out.Applied? && k < |changes| && TempsKept(a, b, k, changes[k]))
  }

  // From the moment the plan is journaled and locked.
  method RunBegun(l: Ledger, tree: Tree, w: World, h: Holder, ws: Workspace, changes: seq<Change>, ghost rely: Db -> bool)
    returns (out: Ending, ghost k: nat)
    requires l.Valid() && Holds(l.db, ws, h) && h.plan in l.db.plans
    requires l.db.plans[h.plan].changes == changes && l.db.plans[h.plan].workspace == ws && ValidPlan(changes)
    requires (forall i: nat :: i > 0 ==> AllForeign(w.moves(i), ws)) && Intact(tree.files, changes)
    requires MarkedTo(Progress(l.db, h.plan), 0)
    modifies l, tree
    ensures l.Valid() && Evolves(old(l.db), l.db)
    ensures h.plan in l.db.plans && Ended(out, l.db.plans[h.plan].status) && !out.NotStarted?
    ensures k <= |changes| && (out.Applied? ==> k == |changes|)
    ensures MarkedTo(Progress(l.db, h.plan), k) && ws !in l.db.locks
    ensures out.Died? ==> exists n :: w.dies(n)
    ensures Undisturbed(w, ws, h, rely) && rely(old(l.db)) && (forall i: nat :: i < |changes| ==> i !in old(tree.temps)) ==> out.Applied?
    ensures |old(tree.log)| <= |tree.log| && AllPlanned(changes, tree.log[|old(tree.log)|..])
    ensures TempsEnd(old(tree.temps), tree.temps, out, changes, k)
    ensures Quiet(w) ==>
      && Frontier(old(tree.files), changes, k, tree.files)
      && (out.Applied? ==> Means(old(tree.files), changes, tree.files))
      && h.plan in l.db.journal && Rebuilt(tree.files, l.db.journal[h.plan]) == old(tree.files)
  {
    hide Inv, Evolves, AllForeign, Quiet, MayTouch, AllPlanned, AfterFirst, Frontier, Means, After, Holds, ValidPlan, Intact, Undisturbed, Progress;
    hide Progress;
    ghost var base := tree.files;
    var a := new Process(l, tree, w, h, ws, changes, 0, rely);
    var s: Signal;
    s, k := a.ChangeAll();
    if Quiet(w) && s.Go? { AllDone(base, changes, tree.files); }
    var alive := !s.Dead?;
    if alive {
      var last := a.Pause();
      alive := last.Go?;
    }
    ghost var d := l.db;
    if a.Smooth() { UndisturbedSection(w, ws, h, rely, a.n, d); }
    out := Conclude(l, ws, h, s.Go?, alive, w.draft(a.n) && !w.cancelled(a.n));
    EvolvesTransitive(old(l.db), d, l.db);
    PlanStays(old(l.db), l.db, h.plan);
    if Quiet(w) { JournalStands(l.db, h.plan, base, changes, k, tree.files); }
  }

  // The last transaction: commit, or the mark of the exception handler, or nothing at all.
  method Conclude(l: Ledger, ws: Workspace, h: Holder, carried: bool, alive: bool, draft: bool) returns (out: Ending)
    requires l.Valid() && Holds(l.db, ws, h)
    modifies l
    ensures l.Valid() && Evolves(old(l.db), l.db)
    ensures h.plan in l.db.plans && Ended(out, l.db.plans[h.plan].status)
    ensures Progress(l.db, h.plan) == Progress(old(l.db), h.plan) && ws !in l.db.locks
    ensures out.Died? <==> !alive
    ensures out.Applied? <==> alive && carried && MayTouch(old(l.db), h, PlanApplying, draft)
  {
    hide Inv, Evolves, MayTouch, CommitApply, FailApply, CrashApply;
    ghost var d := l.db;
    EndingStatus(d, ws, h, draft);
    if !alive {
      CalmProofs.CrashApplyKeeps(d, ws);
      l.DropLock(ws);
      return Died;
    }
    if carried {
      CalmProofs.CommitApplyKeeps(d, ws, draft);
      var committed := l.CommitFiles(ws, draft);
      if committed { return Applied; }
      RefusedCommit(d, ws, draft);
    }
    CalmProofs.FailApplyKeeps(d, ws);
    l.MarkUncertain(ws);
    return Uncertain;
  }

  lemma RefusedCommit(d: Db, ws: Workspace, draft: bool)
    requires !(ws in d.locks && MayTouch(d, d.locks[ws], PlanApplying, draft))
    ensures CommitApply(d, ws, draft) == d
  {
  }

  predicate Ended(out: Ending, s: PlanStatus) {
    match out
    case NotStarted => false
    case Applied => s.PlanApplied?
    case Uncertain => s.PlanUncertain?
    case Died => s.PlanApplying?
  }

  lemma AllDone(base: Files, changes: seq<Change>, files: Files)
    requires ValidPlan(changes) && Intact(base, changes) && AfterFirst(base, changes, |changes|, files)
    ensures Frontier(base, changes, |changes|, files) && Means(base, changes, files)
  {
    AfterFirstIsFrontier(base, changes, |changes|, files);
    assert changes[..|changes|] == changes;
  }

  // The apply gets past its first section: the plan is the owner's, and the ledger as the others
  // have left it lets it begin, with the files as the editors have left them.
  ghost predicate Starts(d: Db, files: Files, w: World, r: Record, p: PlanId, owner: Owner) {
    && p in d.plans && d.plans[p].owner == owner && !w.dies(0)
    && CanBegin(After(d, w.moves(0)), r, p, owner, w.draft(0) && !w.cancelled(0), Intact(Edited(files, w.edits(0)), d.plans[p].changes))
  }

  // The ledger as the begin leaves it.
  ghost function Begun(d: Db, w: World, r: Record, p: PlanId, owner: Owner): Db {
    BeginApply(After(d, w.moves(0)), r, p, owner, w.draft(0) && !w.cancelled(0), true)
  }

  // It does, nothing disturbs it afterwards, and its temporary names are free.
  ghost predicate GoesThrough(d: Db, files: Files, temps: map<nat, Bytes>, w: World, r: Record, p: PlanId, owner: Owner, rely: Db -> bool) {
    && Starts(d, files, w, r, p, owner)
    && Undisturbed(w, d.plans[p].workspace, Holder(r, p, owner), rely) && rely(Begun(d, w, r, p, owner))
    && forall i: nat :: i < |d.plans[p].changes| ==> i !in temps
  }

  // The worker's apply of plan `p`, from its first read to whatever end it meets. Whatever
  // condition the others keep that opens the guard, an apply that nothing disturbs is completed.
  method ApplyPlan(l: Ledger, tree: Tree, w: World, r: Record, p: PlanId, owner: Owner, ghost rely: Db -> bool)
    returns (out: Ending, ghost k: nat)
    requires l.Valid()
    requires p in l.db.plans ==> forall i: nat :: i > 0 ==> AllForeign(w.moves(i), l.db.plans[p].workspace)
    modifies l, tree
    ensures l.Valid() && Evolves(old(l.db), l.db)
    ensures out.NotStarted? <==> !Starts(old(l.db), old(tree.files), w, r, p, owner)
    ensures !out.NotStarted? ==>
      && p in old(l.db.plans) && k <= |old(l.db.plans)[p].changes| && (out.Applied? ==> k == |old(l.db.plans)[p].changes|)
      && MarkedTo(Progress(l.db, p), k) && old(l.db.plans)[p].workspace !in l.db.locks
    ensures out.Died? ==> exists n :: w.dies(n)
    ensures GoesThrough(old(l.db), old(tree.files), old(tree.temps), w, r, p, owner, rely) ==> out.Applied?
    ensures !out.NotStarted? ==>
      && p in old(l.db.plans) && p in l.db.plans && l.db.plans[p].changes == old(l.db.plans)[p].changes
      && Ended(out, l.db.plans[p].status)
    ensures |old(tree.log)| <= |tree.log|
      && (p in old(l.db.plans) ==> AllPlanned(old(l.db.plans)[p].changes, tree.log[|old(tree.log)|..]))
    ensures TempsEnd(old(tree.temps), tree.temps, out, if p in old(l.db.plans) then old(l.db.plans)[p].changes else [], k)
    ensures out.NotStarted? ==> tree.temps == old(tree.temps) && tree.log == old(tree.log)
    ensures Quiet(w) && out.NotStarted? ==> tree.files == old(tree.files)
    ensures Quiet(w) && !out.NotStarted? ==>
      && Intact(old(tree.files), l.db.plans[p].changes)
      && Frontier(old(tree.files), l.db.plans[p].changes, k, tree.files)
      && (out.Applied? ==> Means(old(tree.files), l.db.plans[p].changes, tree.files))
      && p in l.db.journal && Rebuilt(tree.files, l.db.journal[p]) == old(tree.files)
  {
    hide Inv, Evolves, AllForeign, Quiet, MayTouch, AllPlanned, AfterFirst, Frontier, Means, After, Undisturbed, CanBegin, Intact, Progress, MarkedTo;
    k := 0;
    KeepsSelf(l.db);
    NothingLogged(p, l.db, tree.log);
    if p !in l.db.plans || l.db.plans[p].owner != owner || w.dies(0) { return NotStarted, 0; }
    var changes, ws := l.db.plans[p].changes, l.db.plans[p].workspace;
    ghost var first := l.db;
    QuietEdit(w, 0, tree.files);
    Others(l, w.moves(0));
    PlanStays(first, l.db, p);
    tree.OutsideEdit(w.edits(0));
    var intact := ReadPreimages(tree, changes);
    ghost var d := l.db;
    CreateProofs.BeginKeeps(d, r, p, owner, w.draft(0) && !w.cancelled(0), intact);
    var begun := l.Begin(r, p, owner, w.draft(0) && !w.cancelled(0), intact);
    EvolvesTransitive(first, d, l.db);
    if !begun { return NotStarted, 0; }
    BegunFacts(d, r, p, owner, w.draft(0) && !w.cancelled(0), intact);
    d := l.db;
    out, k := RunBegun(l, tree, w, Holder(r, p, owner), ws, changes, rely);
    EvolvesTransitive(first, d, l.db);
    PlanStays(first, l.db, p);
  }

  lemma NothingLogged(p: PlanId, d: Db, log: seq<Mutation>)
    ensures p in d.plans ==> AllPlanned(d.plans[p].changes, log[|log|..])
  {
    assert log[|log|..] == [];
  }

  // ---------- such conditions exist ----------

  // The guard is open, and stays so until the given time even if nobody renews anything.
  ghost predicate Leased(d: Db, h: Holder, until: int) {
    && MayTouch(d, h, PlanApplying, true) && d.clock <= until && until < d.plans[h.plan].expires
    && until < d.claims[h.record.task].expires && until - HEARTBEAT_SECONDS < d.workers[h.record.worker].heartbeat
  }

  predicate Waits(moves: seq<Step>, until: int) { forall i :: 0 <= i < |moves| ==> moves[i].TickStep? && moves[i].now <= until }

  lemma {:induction false} LeaseOutlasts(d: Db, moves: seq<Step>, h: Holder, until: int)
    requires Leased(d, h, until) && Waits(moves, until)
    ensures Leased(After(d, moves), h, until)
  {
    if moves != [] {
      var c, s := After(d, moves[..|moves| - 1]), moves[|moves| - 1];
      LeaseOutlasts(d, moves[..|moves| - 1], h, until);
      assert Next(c, s) == Tick(c, s.now);
      hide Next;
    }
  }

  lemma MarkKeepsLease(d: Db, ws: Workspace, i: nat, h: Holder, until: int)
    requires Leased(d, h, until)
    ensures Leased(MarkJournal(d, ws, i), h, until)
  {
  }

  // While only time passes, and not past the worker's leases, nothing disturbs an apply.
  lemma LeasedIsUndisturbed(w: World, ws: Workspace, h: Holder, until: int)
    requires Quiet(w) && forall n: nat :: w.draft(n) && !w.cancelled(n) && !w.fails(n) && !w.dies(n) && w.accepts(n) > 0
    requires forall n: nat :: n > 0 ==> Waits(w.moves(n), until)
    ensures Undisturbed(w, ws, h, d => Leased(d, h, until))
  {
    var rely := d => Leased(d, h, until);
    forall d | rely(d) ensures MayTouch(d, h, PlanApplying, true) {}
    hide MayTouch, Inv, After, MarkJournal, Leased, Quiet;
    forall n: nat, d | n > 0 && Inv(d) && rely(d) ensures rely(After(d, w.moves(n))) { LeaseOutlasts(d, w.moves(n), h, until); }
    forall i: nat, d | Inv(d) && rely(d) ensures rely(MarkJournal(d, ws, i)) { MarkKeepsLease(d, ws, i, h, until); }
  }
}
