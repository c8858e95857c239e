// Monthly audit archives: write, verify, prune and expire under partial failure.
module AuditArchive {
  import opened Options

  type Id = nat
  type Month = nat

  const DAY := 86_400
  const MAX_ROWS := 100_000
  const MAX_SCAN_ROWS := 500_000
  const MAX_ARCHIVES := 240
  const MAX_PRUNE_ROWS := 10_000
  const DELETE_BATCH := 100

  // `pinned` is workflow evidence; other rows are housekeeping.
  datatype Row = Row(pinned: bool, at: int, body: string)

  // The rows of a month by identifier, or a file that does not verify.
  datatype Archive = Archive(rows: map<Id, Row>) | Damaged

  // One run's surroundings: the clock, the KST calendar, rows inserted or changed by others
  // before the n-th operation, operations that fail, and those at which the process dies.
  datatype World = World(now: int, month: int -> Month, others: nat -> map<Id, Row>, fails: nat -> bool, dies: nat -> bool)

  ghost predicate Calendar(month: int -> Month) { forall a, b {:trigger month(a), month(b)} :: a <= b ==> month(a) <= month(b) }

  // The preceding twelve completed months remain available.
  function Floor(w: World): int { w.month(w.now) - 12 }

  predicate Prunable(w: World, r: Row) { !r.pinned && r.at < w.now - 90 * DAY }

  ghost predicate Archived(archives: map<Month, Archive>, m: Month, id: Id, r: Row) {
    m in archives && archives[m].Archive? && id in archives[m].rows && archives[m].rows[id] == r
  }

  predicate InMonth(w: World, r: Row, m: Month) { w.month(r.at) == m }

  function LiveOf(rows: map<Id, Row>, w: World, m: Month): map<Id, Row> { map id | id in rows && InMonth(w, rows[id], m) :: rows[id] }

  // ---------- queue order ----------

  predicate IsLeast(ids: set<nat>, x: nat) { x in ids && forall k | k in ids :: x <= k }

  function LeastOf(ids: set<nat>): (least: nat)
    requires ids != {}
    ensures IsLeast(ids, least)
  {
    LeastExists(ids);
    var least :| least in ids && IsLeast(ids, least);
    LeastIsOne(ids);
    least
  }

  lemma LeastIsOne(ids: set<nat>)
    ensures forall x, y :: IsLeast(ids, x) && IsLeast(ids, y) ==> x == y
  {
  }

  lemma {:induction false} LeastExists(ids: set<nat>)
    requires ids != {}
    ensures exists least :: IsLeast(ids, least)
    decreases |ids|
  {

    var x :| x in ids;
    var rest := ids - {x};
    assert ids == rest + {x};
    if rest == {} {
      assert IsLeast(ids, x);
    } else {
      LeastExists(rest);
      var y :| IsLeast(rest, y);
      assert IsLeast(ids, if x < y then x else y);
    }
  }

  // The first `k` identifiers in order.
  function FirstOf(ids: set<nat>, k: nat): (first: set<nat>)
    ensures first <= ids && |first| <= k
    ensures ids != {} && k > 0 ==> first != {}
    decreases k
  {
    if ids == {} || k == 0 then {} else var x := LeastOf(ids); {x} + FirstOf(ids - {x}, k - 1)
  }

  // They come before all others, and are as many as asked for or all.
  lemma {:induction false} FirstComeFirst(ids: set<nat>, k: nat)
    ensures forall a, b | a in FirstOf(ids, k) && b in ids - FirstOf(ids, k) :: a < b
    ensures |FirstOf(ids, k)| == if k < |ids| then k else |ids|
    decreases k
  {
    if ids != {} && k > 0 {
      var x := LeastOf(ids);
      var rest := FirstOf(ids - {x}, k - 1);
      FirstComeFirst(ids - {x}, k - 1);
      assert IsLeast(ids, x) && FirstOf(ids, k) == {x} + rest;
      hide FirstOf, LeastOf;
      LeastAndFirst(ids, x, rest);
    }
  }

  lemma LeastAndFirst(ids: set<nat>, x: nat, rest: set<nat>)
    requires IsLeast(ids, x) && rest <= ids - {x} && forall a, b | a in rest && b in (ids - {x}) - rest :: a < b
    ensures forall a, b | a in {x} + rest && b in ids - ({x} + rest) :: a < b
    ensures |{x} + rest| == 1 + |rest| && |ids - {x}| == |ids| - 1
  {
    forall a, b | a in {x} + rest && b in ids - ({x} + rest) ensures a < b { assert b in (ids - {x}) - rest; }
  }

  // ---------- a run that nothing disturbs ----------

  // After operation `n` nobody else writes, nothing fails and the process lives.
  ghost predicate Calm(w: World, n: nat) { forall k: nat :: k > n ==> w.others(k) == map[] && !w.fails(k) && !w.dies(k) }

  function Due(w: World, live: map<Id, Row>): (due: set<Id>)
    ensures forall id | id in due :: id in live && !live[id].pinned
  {
    set id | id in live && !live[id].pinned && live[id].at < w.now - 90 * 86_400
  }

  // The table holds these rows.
  predicate Has(rows: map<Id, Row>, live: map<Id, Row>) { forall id | id in live :: id in rows && rows[id] == live[id] }

  // The due rows are gone, or the first of them as far as the budget goes.
  ghost predicate PrunedTo(w: World, live: map<Id, Row>, budget: nat, was: map<Id, Row>, rows: map<Id, Row>, deleted: nat) {
    var gone := Due(w, live) - rows.Keys;
    && rows == was - gone && deleted == |gone| == (if budget < |Due(w, live)| then budget else |Due(w, live)|)
    && forall a, b | a in gone && b in Due(w, live) - gone :: a < b
  }

  // The month's archive does not agree with its rows, or it cannot be written.
  predicate Blocks(shelf: map<Month, Archive>, m: Month, live: map<Id, Row>) {
    if m in shelf then Conflicts(shelf[m], live) else |live| > MAX_ROWS
  }

  // What one month of a calm run does.
  ghost predicate MonthRun(w: World, m: Month, live: map<Id, Row>, budget: nat, was: map<Id, Row>, rows: map<Id, Row>,
                           shelf: map<Month, Archive>, archives: map<Month, Archive>, s: Signal, deleted: nat, created: bool, expired: bool)
  {
    if Blocks(shelf, m, live) then s.Raised? && rows == was && archives == shelf && deleted == 0 && !created && !expired
    else
      var archive := if m in shelf then shelf[m] else Archive(live);
      && s.Go? && PrunedTo(w, live, budget, was, rows, deleted) && (created <==> m !in shelf) && archive.Archive?
      && (expired <==> m < w.month(w.now) - 12 && deleted == |Due(w, live)| && AllHousekeeping(archive.rows) && !Present(w, rows, m))
      && archives == if expired then shelf - {m} else shelf[m := archive]
  }

  // How far a calm run has come, with the months `todo` still to come: every other finished month
  // is blocked, or it has an archive or is past the floor and its due rows are gone, unless the
  // budget is used up.
  ghost predicate Through(w: World, seen: map<Id, Row>, shelf: map<Month, Archive>, archives: map<Month, Archive>, rows: map<Id, Row>,
                          deleted: nat, blocked: set<Month>, todo: set<Month>)
  {
    && Untouched(w, seen, shelf, archives, rows, todo) && blocked <= FinishedMonths(w, seen, shelf) - todo
    && forall m | m in FinishedMonths(w, seen, shelf) - todo :: Treated(w, seen, shelf, archives, rows, deleted, blocked, m)
  }

  // Nothing but the deletions has happened to the table, and nothing at all to the months to come.
  ghost predicate Untouched(w: World, seen: map<Id, Row>, shelf: map<Month, Archive>, archives: map<Month, Archive>, rows: map<Id, Row>, todo: set<Month>) {
    && (forall id | id in rows :: id in seen && rows[id] == seen[id])
    && (forall id | id in seen && w.month(seen[id].at) in todo :: id in rows)
    && (forall m | m in todo :: (m in archives <==> m in shelf) && (m in shelf ==> archives[m] == shelf[m]))
  }

  ghost predicate Treated(w: World, seen: map<Id, Row>, shelf: map<Month, Archive>, archives: map<Month, Archive>, rows: map<Id, Row>,
                          deleted: nat, blocked: set<Month>, m: Month)
  {
    && (m in blocked <==> Blocks(shelf, m, LiveOf(seen, w, m)))
    && (m !in blocked ==> m in archives || m < Floor(w))
    && (m !in blocked && deleted < MAX_PRUNE_ROWS ==> forall id | id in seen && InMonth(w, seen[id], m) && Prunable(w, seen[id]) :: id !in rows)
  }

  // The budget goes to the oldest months first: no row is deleted while a due row of an earlier
  // month that is not blocked is left.
  ghost predicate OldestFirst(w: World, seen: map<Id, Row>, rows: map<Id, Row>, blocked: set<Month>) {
    forall i, j | i in Due(w, seen) && j in seen && j !in rows && w.month(seen[i].at) < w.month(seen[j].at) && w.month(seen[i].at) !in blocked ::
      i !in rows
  }

  lemma OldestFirstOn(w: World, m: Month, seen: map<Id, Row>, shelf: map<Month, Archive>, before: map<Month, Archive>, archives: map<Month, Archive>,
                      was: map<Id, Row>, rows: map<Id, Row>, deleted: nat, more: nat, blocked: set<Month>, todo: set<Month>,
                      s: Signal, created: bool, expired: bool)
    requires Through(w, seen, shelf, before, was, deleted, blocked, todo) && IsLeast(todo, m) && todo <= FinishedMonths(w, seen, shelf)
    requires deleted <= MAX_PRUNE_ROWS && OldestFirst(w, seen, was, blocked)
    requires MonthRun(w, m, LiveOf(seen, w, m), MAX_PRUNE_ROWS - deleted, was, rows, before, archives, s, more, created, expired)
    ensures OldestFirst(w, seen, rows, blocked + if s.Raised? then {m} else {})
  {
    hide MonthRun, MonthShows, Through, OldestFirst, Due, LiveOf, FinishedMonths, Blocks;
    var live := LiveOf(seen, w, m);
    MonthRunShows(w, m, live, MAX_PRUNE_ROWS - deleted, was, rows, before, archives, s, more, created, expired);
    MonthDeletes(w, m, live, MAX_PRUNE_ROWS - deleted, was, rows, before, archives, s, more, created, expired);
    RowsOnlyGo(w, m, live, was, rows, before, archives, s.Raised?, s.Go? && more < MAX_PRUNE_ROWS - deleted);
    var after := blocked + if s.Raised? then {m} else {};
    forall i, j | i in Due(w, seen) && j in seen && j !in rows && w.month(seen[i].at) < w.month(seen[j].at) && w.month(seen[i].at) !in after
      ensures i !in rows
    {
      OldestPair(w, m, seen, shelf, before, was, rows, deleted, blocked, todo, i, j);
    }
    OldestFirstSo(w, seen, rows, after);
  }

  lemma OldestFirstSo(w: World, seen: map<Id, Row>, rows: map<Id, Row>, blocked: set<Month>)
    requires forall i, j | i in Due(w, seen) && j in seen && j !in rows && w.month(seen[i].at) < w.month(seen[j].at)
                           && w.month(seen[i].at) !in blocked :: i !in rows
    ensures OldestFirst(w, seen, rows, blocked)
  {
  }

  lemma OldestPair(w: World, m: Month, seen: map<Id, Row>, shelf: map<Month, Archive>, before: map<Month, Archive>,
                   was: map<Id, Row>, rows: map<Id, Row>, deleted: nat, blocked: set<Month>, todo: set<Month>, i: Id, j: Id)
    requires Through(w, seen, shelf, before, was, deleted, blocked, todo) && IsLeast(todo, m) && todo <= FinishedMonths(w, seen, shelf)
    requires OldestFirst(w, seen, was, blocked) && deleted <= MAX_PRUNE_ROWS && (deleted == MAX_PRUNE_ROWS ==> rows == was)
    requires (forall id | id in rows :: id in was) && (j in was && j !in rows ==> j in Due(w, LiveOf(seen, w, m)))
    requires i in Due(w, seen) && j in seen && j !in rows && w.month(seen[i].at) < w.month(seen[j].at) && w.month(seen[i].at) !in blocked
    ensures i !in rows
  {
    if j in was {
      assert j in LiveOf(seen, w, m) && w.month(seen[j].at) == m;
      EarlierIsGone(w, seen, shelf, before, was, deleted, blocked, todo, m, i);
    } else {
      assert i in seen;
      hide Through, Due, LiveOf, FinishedMonths;
    }
  }

  lemma RowsOnlyGo(w: World, m: Month, live: map<Id, Row>, was: map<Id, Row>, rows: map<Id, Row>,
                   shelf: map<Month, Archive>, archives: map<Month, Archive>, blocked: bool, done: bool)
    requires MonthShows(w, m, live, was, rows, shelf, archives, blocked, done)
    ensures (forall id | id in rows :: id in was) && (forall id | id in was && id !in rows :: id in Due(w, live))
  {
    hide Blocks, Due;
  }

  lemma EarlierIsGone(w: World, seen: map<Id, Row>, shelf: map<Month, Archive>, before: map<Month, Archive>, was: map<Id, Row>, deleted: nat,
                      blocked: set<Month>, todo: set<Month>, m: Month, i: Id)
    requires Through(w, seen, shelf, before, was, deleted, blocked, todo) && IsLeast(todo, m) && m < w.month(w.now)
    requires i in Due(w, seen) && w.month(seen[i].at) < m && w.month(seen[i].at) !in blocked && deleted < MAX_PRUNE_ROWS
    ensures i !in was
  {
    var k := w.month(seen[i].at);
    assert k in FinishedMonths(w, seen, shelf) - todo;
    assert Treated(w, seen, shelf, before, was, deleted, blocked, k);
    assert Prunable(w, seen[i]);
    hide Blocks, LiveOf, FinishedMonths;
  }

  // The counters after one month.
  function Tally(r: Report, m: Month, s: Signal, deleted: nat, archived: nat, expired: bool): Report {
    Report(r.deleted + deleted, r.archived + archived, r.expired + if expired then 1 else 0, r.blocked + if s.Raised? then {m} else {})
  }

  // What one month adds to a calm run.
  lemma CalmMonth(w: World, m: Month, seen: map<Id, Row>, shelf: map<Month, Archive>, before: map<Month, Archive>, archives: map<Month, Archive>,
                  was: map<Id, Row>, rows: map<Id, Row>, r: Report, more: nat, todo: set<Month>, s: Signal, created: bool, expired: bool,
                  next: Report, size: nat)
    requires Through(w, seen, shelf, before, was, r.deleted, r.blocked, todo) && IsLeast(todo, m) && todo <= FinishedMonths(w, seen, shelf)
    requires r.deleted <= MAX_PRUNE_ROWS && OldestFirst(w, seen, was, r.blocked)
    requires MonthRun(w, m, LiveOf(seen, w, m), MAX_PRUNE_ROWS - r.deleted, was, rows, before, archives, s, more, created, expired)
    requires next == Tally(r, m, s, more, if created then size else 0, expired)
    ensures !s.Dead? && OldestFirst(w, seen, rows, next.blocked)
    ensures Through(w, seen, shelf, archives, rows, next.deleted, next.blocked, todo - {m})
  {
    hide Through, MonthRun, OldestFirst, FinishedMonths, LiveOf;
    MonthAdvances(w, m, seen, shelf, before, archives, was, rows, r.deleted, more, r.blocked, todo, s, created, expired);
    OldestFirstOn(w, m, seen, shelf, before, archives, was, rows, r.deleted, more, r.blocked, todo, s, created, expired);
  }

  lemma OldestFirstAtStart(w: World, seen: map<Id, Row>)
    ensures OldestFirst(w, seen, seen, {})
  {
  }

  // Rows go only if there is budget left.
  lemma MonthDeletes(w: World, m: Month, live: map<Id, Row>, budget: nat, was: map<Id, Row>, rows: map<Id, Row>,
                     shelf: map<Month, Archive>, archives: map<Month, Archive>, s: Signal, deleted: nat, created: bool, expired: bool)
    requires MonthRun(w, m, live, budget, was, rows, shelf, archives, s, deleted, created, expired)
    ensures budget == 0 ==> rows == was
  {
    hide AllHousekeeping, Present, Due, PrunedTo;
    if Blocks(shelf, m, live) {
      hide Blocks;
    } else {
      hide Blocks;
      if budget == 0 { NoBudget(w, live, was, rows, deleted); }
    }
  }

  lemma NoBudget(w: World, live: map<Id, Row>, was: map<Id, Row>, rows: map<Id, Row>, deleted: nat)
    requires PrunedTo(w, live, 0, was, rows, deleted)
    ensures rows == was
  {
    hide Due;
    assert Due(w, live) - rows.Keys == {};
    assert was - {} == was;
  }

  lemma ThroughNothing(w: World, seen: map<Id, Row>, shelf: map<Month, Archive>)
    ensures Through(w, seen, shelf, shelf, seen, 0, {}, FinishedMonths(w, seen, shelf))
  {
  }

  // What a month of a calm run shows from outside.
  ghost predicate MonthShows(w: World, m: Month, live: map<Id, Row>, was: map<Id, Row>, rows: map<Id, Row>,
                             shelf: map<Month, Archive>, archives: map<Month, Archive>, blocked: bool, done: bool)
  {
    && (forall id | id in rows :: id in was && rows[id] == was[id]) && (forall id | id in was && id !in rows :: id in Due(w, live))
    && (forall k | k != m :: (k in archives <==> k in shelf) && (k in shelf ==> archives[k] == shelf[k]))
    && (blocked <==> Blocks(shelf, m, live)) && (!blocked ==> m in archives || m < Floor(w))
    && (done ==> Due(w, live) !! rows.Keys)
  }

  lemma MonthRunShows(w: World, m: Month, live: map<Id, Row>, budget: nat, was: map<Id, Row>, rows: map<Id, Row>,
                      shelf: map<Month, Archive>, archives: map<Month, Archive>, s: Signal, deleted: nat, created: bool, expired: bool)
    requires MonthRun(w, m, live, budget, was, rows, shelf, archives, s, deleted, created, expired)
    ensures !s.Dead? && MonthShows(w, m, live, was, rows, shelf, archives, s.Raised?, s.Go? && deleted < budget)
  {
    hide AllHousekeeping, Present, Due, PrunedTo, MonthShows;
    if Blocks(shelf, m, live) {
      hide Blocks;
      BlockedShows(w, m, live, was, shelf);
    } else {
      var archive := if m in shelf then shelf[m] else Archive(live);
      hide Blocks;
      PrunedShows(w, live, budget, was, rows, deleted);
      if deleted < budget { AllDueGone(w, live, budget, was, rows, deleted); }
      ShelfShows(w, m, live, was, rows, shelf, archives, archive, expired, deleted < budget);
    }
  }

  lemma BlockedShows(w: World, m: Month, live: map<Id, Row>, was: map<Id, Row>, shelf: map<Month, Archive>)
    requires Blocks(shelf, m, live)
    ensures MonthShows(w, m, live, was, was, shelf, shelf, true, false)
  {
    hide Blocks, Due;
  }

  lemma ShelfShows(w: World, m: Month, live: map<Id, Row>, was: map<Id, Row>, rows: map<Id, Row>,
                   shelf: map<Month, Archive>, archives: map<Month, Archive>, archive: Archive, expired: bool, done: bool)
    requires !Blocks(shelf, m, live) && (expired ==> m < Floor(w)) && (done ==> Due(w, live) !! rows.Keys)
    requires (forall id | id in rows :: id in was && rows[id] == was[id]) && (forall id | id in was && id !in rows :: id in Due(w, live))
    requires archives == if expired then shelf - {m} else shelf[m := archive]
    ensures MonthShows(w, m, live, was, rows, shelf, archives, false, done)
  {
    hide Blocks, Due;
    if expired {} else {}
  }

  lemma PrunedShows(w: World, live: map<Id, Row>, budget: nat, was: map<Id, Row>, rows: map<Id, Row>, deleted: nat)
    requires PrunedTo(w, live, budget, was, rows, deleted)
    ensures (forall id | id in rows :: id in was && rows[id] == was[id]) && (forall id | id in was && id !in rows :: id in Due(w, live))
  {
    hide Due;
  }

  lemma ThroughOneMore(w: World, seen: map<Id, Row>, shelf: map<Month, Archive>, before: map<Month, Archive>, archives: map<Month, Archive>,
                       was: map<Id, Row>, rows: map<Id, Row>, deleted: nat, more: nat, blocked: set<Month>, todo: set<Month>, m: Month,
                       raised: bool, done: bool)
    requires Through(w, seen, shelf, before, was, deleted, blocked, todo) && m in todo && todo <= FinishedMonths(w, seen, shelf)
    requires MonthShows(w, m, LiveOf(seen, w, m), was, rows, before, archives, raised, done)
    requires !raised && deleted + more < MAX_PRUNE_ROWS ==> done
    ensures Through(w, seen, shelf, archives, rows, deleted + more, blocked + if raised then {m} else {}, todo - {m})
  {
    var after := blocked + if raised then {m} else {};
    UntouchedOneMore(w, seen, shelf, before, archives, was, rows, todo, m, raised, done);
    assert Blocks(before, m, LiveOf(seen, w, m)) <==> Blocks(shelf, m, LiveOf(seen, w, m));
    assert forall id | id in rows :: id in was;
    assert forall k | k != m :: k in archives <==> k in before;
    hide Blocks, LiveOf, Due, Treated, FinishedMonths, Untouched;
    forall k | k in FinishedMonths(w, seen, shelf) - (todo - {m}) ensures Treated(w, seen, shelf, archives, rows, deleted + more, after, k) {
      if k != m {
        assert k in FinishedMonths(w, seen, shelf) - todo;
        TreatedStays(w, seen, shelf, before, archives, was, rows, deleted, more, blocked, after, k);
      } else {
        JustTreated(w, seen, shelf, archives, rows, deleted + more, after, m);
      }
    }
  }

  lemma UntouchedOneMore(w: World, seen: map<Id, Row>, shelf: map<Month, Archive>, before: map<Month, Archive>, archives: map<Month, Archive>,
                         was: map<Id, Row>, rows: map<Id, Row>, todo: set<Month>, m: Month, raised: bool, done: bool)
    requires Untouched(w, seen, shelf, before, was, todo) && m in todo
    requires MonthShows(w, m, LiveOf(seen, w, m), was, rows, before, archives, raised, done)
    ensures Untouched(w, seen, shelf, archives, rows, todo - {m})
  {
    assert forall id | id in Due(w, LiveOf(seen, w, m)) :: id in seen && w.month(seen[id].at) == m;
    hide Blocks, LiveOf, Due;
  }

  lemma MonthAdvances(w: World, m: Month, seen: map<Id, Row>, shelf: map<Month, Archive>, before: map<Month, Archive>, archives: map<Month, Archive>,
                      was: map<Id, Row>, rows: map<Id, Row>, deleted: nat, more: nat, blocked: set<Month>, todo: set<Month>,
                      s: Signal, created: bool, expired: bool)
    requires Through(w, seen, shelf, before, was, deleted, blocked, todo) && m in todo && todo <= FinishedMonths(w, seen, shelf)
    requires deleted <= MAX_PRUNE_ROWS
    requires MonthRun(w, m, LiveOf(seen, w, m), MAX_PRUNE_ROWS - deleted, was, rows, before, archives, s, more, created, expired)
    ensures !s.Dead?
    ensures Through(w, seen, shelf, archives, rows, deleted + more, blocked + if s.Raised? then {m} else {}, todo - {m})
  {
    hide Through, MonthRun, MonthShows;
    MonthRunShows(w, m, LiveOf(seen, w, m), MAX_PRUNE_ROWS - deleted, was, rows, before, archives, s, more, created, expired);
    ThroughOneMore(w, seen, shelf, before, archives, was, rows, deleted, more, blocked, todo, m, s.Raised?, s.Go? && more < MAX_PRUNE_ROWS - deleted);
  }

  lemma TreatedStays(w: World, seen: map<Id, Row>, shelf: map<Month, Archive>, before: map<Month, Archive>, archives: map<Month, Archive>,
                     was: map<Id, Row>, rows: map<Id, Row>, deleted: nat, more: nat, blocked: set<Month>, after: set<Month>, k: Month)
    requires Treated(w, seen, shelf, before, was, deleted, blocked, k) && (k in after <==> k in blocked) && (k in archives <==> k in before)
    requires forall id | id in rows :: id in was
    ensures Treated(w, seen, shelf, archives, rows, deleted + more, after, k)
  {
    hide Blocks, Prunable, InMonth;
  }

  lemma JustTreated(w: World, seen: map<Id, Row>, shelf: map<Month, Archive>, archives: map<Month, Archive>, rows: map<Id, Row>,
                    deleted: nat, after: set<Month>, m: Month)
    requires (m in after <==> Blocks(shelf, m, LiveOf(seen, w, m))) && (m !in after ==> m in archives || m < Floor(w))
    requires m !in after && deleted < MAX_PRUNE_ROWS ==> Due(w, LiveOf(seen, w, m)) !! rows.Keys
    ensures Treated(w, seen, shelf, archives, rows, deleted, after, m)
  {
    var live := LiveOf(seen, w, m);
    forall id | id in seen && InMonth(w, seen[id], m) && Prunable(w, seen[id]) ensures id in Due(w, live) {
      assert id in live && live[id] == seen[id];
    }
    hide Blocks, Due, LiveOf, Prunable, InMonth;
  }

  lemma StillThere(w: World, seen: map<Id, Row>, shelf: map<Month, Archive>, archives: map<Month, Archive>, rows: map<Id, Row>,
                   deleted: nat, blocked: set<Month>, todo: set<Month>, m: Month)
    requires Through(w, seen, shelf, archives, rows, deleted, blocked, todo) && m in todo
    ensures Has(rows, LiveOf(seen, w, m))
  {
  }

  // The run reads everything it would have to archive.
  predicate WithinBounds(w: World, rows: map<Id, Row>, archives: map<Month, Archive>) {
    |rows| <= MAX_SCAN_ROWS && |archives| <= MAX_ARCHIVES && |FinishedMonths(w, rows, archives)| <= MAX_ARCHIVES
  }

  lemma AllDueGone(w: World, live: map<Id, Row>, budget: nat, was: map<Id, Row>, rows: map<Id, Row>, deleted: nat)
    requires PrunedTo(w, live, budget, was, rows, deleted) && deleted < budget
    ensures Due(w, live) !! rows.Keys
  {
    var due := Due(w, live);
    SameSize(due - rows.Keys, due);
  }

  lemma SameSize(a: set<nat>, b: set<nat>)
    requires a <= b && |a| == |b|
    ensures a == b
  {
    assert b == a + (b - a);
  }

  // ---------- what survives ----------

  type Gone = seq<(Id, Row)>

  // Rows change only as the others write them.
  ghost predicate Rewritten(w: World, a: map<Id, Row>, b: map<Id, Row>) {
    && (forall id | id in a :: id in b)
    && (forall id | id in b :: (id in a && b[id] == a[id]) || Wrote(w, id, b[id]))
  }

  ghost predicate Wrote(w: World, id: Id, r: Row) { exists k :: id in w.others(k) && w.others(k)[id] == r }

  ghost predicate RewrittenIn(ws: seq<World>, a: map<Id, Row>, b: map<Id, Row>) {
    && (forall id | id in a :: id in b)
    && (forall id | id in b :: (id in a && b[id] == a[id]) || exists i :: 0 <= i < |ws| && Wrote(ws[i], id, b[id]))
  }

  lemma RewrittenOn(w: World, a: map<Id, Row>, b: map<Id, Row>, c: map<Id, Row>)
    requires Rewritten(w, a, b) && Rewritten(w, b, c)
    ensures Rewritten(w, a, c)
  {
  }

  lemma RewrittenSelf(w: World, a: map<Id, Row>)
    ensures Rewritten(w, a, a)
  {
  }

  lemma RewrittenInOn(ws: seq<World>, i: nat, a: map<Id, Row>, b: map<Id, Row>, c: map<Id, Row>)
    requires i < |ws| && RewrittenIn(ws, a, b) && Rewritten(ws[i], b, c)
    ensures RewrittenIn(ws, a, c)
  {
  }

  ghost predicate Touched(w: World, id: Id) { exists k :: id in w.others(k) }

  // A row nobody else wrote is still in the table or was deleted by the maintenance.
  ghost predicate Kept(w: World, was: map<Id, Row>, rows: map<Id, Row>, gone: Gone) {
    forall id {:trigger id in was} :: id in was && !Touched(w, id) ==> (id in rows && rows[id] == was[id]) || (id, was[id]) in gone
  }

  // A deleted row was old housekeeping of a finished month; it is verbatim in that month's
  // archive unless the month is past the twelve-month floor.
  ghost predicate Justified(w: World, archives: map<Month, Archive>, id: Id, r: Row) {
    && Prunable(w, r) && w.month(r.at) < w.month(w.now)
    && (Archived(archives, w.month(r.at), id, r) || w.month(r.at) < Floor(w))
  }

  ghost predicate AllJustified(w: World, archives: map<Month, Archive>, gone: Gone) {
    forall e | e in gone :: Justified(w, archives, e.0, e.1)
  }

  // Archives are immutable, and only months past the floor are ever removed.
  ghost predicate Retained(w: World, a: map<Month, Archive>, b: map<Month, Archive>) {
    && (forall m | m in a && m in b :: b[m] == a[m])
    && (forall m | m in a && m !in b :: m < Floor(w))
  }

  lemma RetainedKeepsJustified(w: World, a: map<Month, Archive>, b: map<Month, Archive>, gone: Gone)
    requires Retained(w, a, b) && AllJustified(w, a, gone)
    ensures AllJustified(w, b, gone)
  {
    forall e | e in gone ensures Justified(w, b, e.0, e.1) { assert Justified(w, a, e.0, e.1); }
  }

  datatype Signal = Go | Raised | Dead

  // The counters and the blocked months of a run's result.
  datatype Report = Report(deleted: nat, archived: nat, expired: nat, blocked: set<Month>)

  class AuditStore {
    var rows: map<Id, Row>
    var archives: map<Month, Archive>
    ghost var removed: Gone   // every row the maintenance has deleted, in order
    ghost var written: map<Id, Row>   // each row as others last wrote it
    var n: nat

    // Whatever others wrote last is in the table or was deleted by the maintenance.
    ghost predicate Valid()
      reads this`rows, this`removed, this`written
    {
      forall id {:trigger id in written} :: id in written ==> (id in rows && rows[id] == written[id]) || (id, written[id]) in removed
    }

    constructor (rows: map<Id, Row>)
      ensures Valid() && this.rows == rows && archives == map[] && removed == [] && written == rows
    {
      this.rows, archives, removed, written, n := rows, map[], [], rows, 0;
    }

    // Others write audit rows, then the next operation runs, fails or finds the process dead.
    method Next(w: World) returns (s: Signal)
      requires Valid()
      modifies this`rows, this`written, this`n
      ensures Valid() && Rewritten(w, old(written), written)
      ensures rows == old(rows) || exists k :: rows == old(rows) + w.others(k)
      ensures Kept(w, old(rows), rows, [])
      ensures n > old(n) && (Calm(w, old(n)) ==> s.Go? && rows == old(rows))
    {
      n := n + 1;
      if w.dies(n) { return Dead; }
      rows, written := rows + w.others(n), written + w.others(n);
      s := if w.fails(n) then Raised else Go;
    }

    // One transaction: every row is compared with what was archived before it is deleted,
    // and a failure anywhere rolls the whole batch back.
    method DeleteBatch(w: World, live: map<Id, Row>, ids: set<Id>) returns (s: Signal, count: nat)
      requires Valid()
      requires forall id | id in ids :: id in live
      modifies this`rows, this`written, this`removed, this`n
      ensures Valid() && Rewritten(w, old(written), written)
      ensures count == |removed| - |old(removed)| <= |ids| && removed[..|old(removed)|] == old(removed)
      ensures forall e | e in removed[|old(removed)|..] :: e.0 in ids && live[e.0] == e.1 && e.0 !in rows
      ensures forall i, j :: |old(removed)| <= i < j < |removed| ==> removed[i].0 != removed[j].0
      ensures Kept(w, old(rows), rows, removed[|old(removed)|..])
      ensures !s.Go? ==> count == 0
      ensures n >= old(n) && (Calm(w, old(n)) && (forall id | id in ids :: id in old(rows) && old(rows)[id] == live[id]) ==>
        s.Go? && rows == old(rows) - ids && count == |ids|)
    {
      count := 0;
      s := Next(w);
      assert removed[|old(removed)|..] == [];
      if !s.Go? { return; }
      var ok, table;
      ghost var gone: Gone;
      ok, table, count, gone := DeleteRows(rows, live, ids);
      if !ok { return Raised, 0; }
      n := n + 1;
      if w.dies(n) { return Dead, 0; }
      if w.fails(n) { return Raised, 0; }
      KeptOn(w, old(rows), rows, table, [], gone);
      rows, removed := table, removed + gone;
      assert removed[|old(removed)|..] == [] + gone;
    }

    // Deletions in batches, oldest identifiers first, within the run's remaining budget.
    method Prune(w: World, live: map<Id, Row>, budget: nat) returns (s: Signal, deleted: nat)
      requires Valid()
      modifies this`rows, this`written, this`removed, this`n
      ensures Valid() && Rewritten(w, old(written), written)
      ensures deleted == |removed| - |old(removed)| <= budget && removed[..|old(removed)|] == old(removed)
      ensures forall e | e in removed[|old(removed)|..] :: e.0 in live && live[e.0] == e.1 && Prunable(w, e.1)
      ensures Kept(w, old(rows), rows, removed[|old(removed)|..])
      ensures n >= old(n) && (Calm(w, old(n)) && Has(old(rows), live) ==> s.Go? && PrunedTo(w, live, budget, old(rows), rows, deleted))
    {
      hide Kept, Rewritten, AuditStore.Valid, Calm, PruneSoFar, PrunedTo, FirstOf, Prunable;
      CalmOn(w, n);
      deleted := 0;
      s := Next(w);
      assert removed[|old(removed)|..] == [];
      if !s.Go? { return; }
      var todo := Due(w, live);
      ghost var calm := Calm(w, old(n)) && Has(old(rows), live);
      if calm { PruneNothing(w, live, rows); }
      var taken: nat := 0;
      while todo != {} && taken < budget
        invariant Valid() && Rewritten(w, old(written), written)
        invariant todo <= Due(w, live) && n >= old(n)
        invariant calm ==> s.Go? && PruneSoFar(Due(w, live), todo, old(rows), rows, deleted, taken)
        invariant deleted == |removed| - |old(removed)| <= taken <= budget && removed[..|old(removed)|] == old(removed)
        invariant forall e | e in removed[|old(removed)|..] :: e.0 in live && live[e.0] == e.1 && Prunable(w, e.1)
        invariant Kept(w, old(rows), rows, removed[|old(removed)|..])
        decreases |todo|
      {
        var size := if budget - taken < DELETE_BATCH then budget - taken else DELETE_BATCH;
        var batch := FirstOf(todo, size);
        ghost var before, table, notes := removed, rows, written;
        var count: nat;
        if calm { BatchIsThere(w, live, todo, batch, old(rows), rows, deleted, taken); }
        s, count := DeleteBatch(w, live, batch);
        RewrittenOn(w, old(written), notes, written);
        BatchEnds(w, live, old(removed), before, removed, old(rows), table, rows, todo, batch, size, deleted, taken, calm && s.Go?);
        deleted := deleted + count;
        if !s.Go? { return; }
        taken, todo := taken + |batch|, todo - batch;
      }
      if calm { PruneAtLast(w, live, todo, budget, old(rows), rows, deleted, taken); }
    }

    // Verify the month's archive, or publish and read back a new one.
    method Establish(w: World, m: Month, live: map<Id, Row>) returns (s: Signal, created: bool)
      requires Valid()
      modifies this`rows, this`written, this`archives, this`n
      ensures Valid() && Rewritten(w, old(written), written)
      ensures Kept(w, old(rows), rows, [])
      ensures m in old(archives) ==> archives == old(archives) && (Conflicts(archives[m], live) ==> !s.Go?)
      ensures m !in old(archives) ==> archives == old(archives) || archives == old(archives)[m := Archive(live)]
      ensures s.Go? ==> m in archives && archives[m].Archive? && forall id | id in live :: Archived(archives, m, id, live[id])
      ensures s.Go? ==> (created <==> m !in old(archives)) && (created ==> archives == old(archives)[m := Archive(live)])
      ensures n >= old(n) && (Calm(w, old(n)) ==>
        rows == old(rows) && if Blocks(old(archives), m, live) then s.Raised? && archives == old(archives) && !created else s.Go?)
    {
      hide Kept, Conflicts;
      created := false;
      ghost var table := rows;
      s := Next(w);
      if !s.Go? { return; }
      if m in archives {
        AgreesHolds(archives, m, live);
        if Conflicts(archives[m], live) { s := Raised; }
      } else if |live| > MAX_ROWS {
        s := Raised;
      } else {
        archives, created := archives[m := Archive(live)], true;
        ghost var middle := rows;
        s := Next(w);
        ghost var none: Gone := [];
        KeptOn(w, table, middle, rows, none, none);
        assert none + none == none;
      }
    }

    // Checked under the database's write lock: the archive is housekeeping only and no row of
    // its month is left in the table.
    method Expire(w: World, m: Month) returns (s: Signal, expired: bool)
      requires Valid()
      requires m in archives && archives[m].Archive? && m < Floor(w)
      modifies this`rows, this`written, this`archives, this`n
      ensures Valid() && Rewritten(w, old(written), written)
      ensures Kept(w, old(rows), rows, [])
      ensures if expired then archives == old(archives) - {m} && AllHousekeeping(old(archives)[m].rows) && !Present(w, rows, m)
              else archives == old(archives)
      ensures n >= old(n) && (Calm(w, old(n)) ==>
        s.Go? && rows == old(rows) && (expired <==> AllHousekeeping(old(archives)[m].rows) && !Present(w, rows, m)))
    {
      expired := false;
      if !AllHousekeeping(archives[m].rows) {
        KeptSelf(w, rows);
        return Go, false;
      }
      s := Next(w);
      if s.Go? && !Present(w, rows, m) { archives, expired := archives - {m}, true; }
    }

    // One month: verify or create its archive, prune what it holds, and expire it when every
    // row of the month is housekeeping past the floor and none is left in the table.
    method ArchiveMonth(w: World, m: Month, live: map<Id, Row>, budget: nat) returns (s: Signal, deleted: nat, created: bool, expired: bool)
      requires Valid()
      requires m < w.month(w.now) && forall id | id in live :: InMonth(w, live[id], m)
      modifies this`rows, this`written, this`archives, this`removed, this`n
      ensures Valid() && Rewritten(w, old(written), written)
      ensures deleted == |removed| - |old(removed)| <= budget && removed[..|old(removed)|] == old(removed)
      ensures Retained(w, old(archives), archives) && OnlyMonth(m, old(archives), archives)
      ensures AllJustified(w, archives, removed[|old(removed)|..]) && Kept(w, old(rows), rows, removed[|old(removed)|..])
      ensures forall e | e in removed[|old(removed)|..] :: InMonth(w, e.1, m)
      ensures m in old(archives) && Conflicts(old(archives)[m], live) ==> !s.Go? && archives == old(archives) && removed == old(removed)
      ensures expired ==> m !in archives && !Present(w, rows, m)
      ensures m in old(archives) && m !in archives ==> old(archives)[m].Archive? && AllHousekeeping(old(archives)[m].rows)
      ensures n >= old(n) && (Calm(w, old(n)) && Has(old(rows), live) ==>
        MonthRun(w, m, live, budget, old(rows), rows, old(archives), archives, s, deleted, created, expired))
    {
      hide Kept, Rewritten, AuditStore.Valid, Retained, AllJustified, OnlyMonth, Archived, Prunable, AllHousekeeping, Present, Conflicts;
      hide Blocks, PrunedTo, Has, Due, MonthRun, Calm;
      ghost var was, calm := rows, Calm(w, n) && Has(rows, live);
      CalmOn(w, n);
      deleted, expired := 0, false;
      NothingGone(w, archives, removed);
      ghost var table, shelf := rows, archives;
      s, created := Establish(w, m, live);
      ghost var notes := written;
      SameArchives(w, m, shelf);
      if m !in shelf { OneMoreArchive(w, m, shelf, live); }
      NothingGone(w, archives, removed);
      if !s.Go? {
        if calm { MonthBlocked(w, m, live, budget, was, shelf); }
        return;
      }
      ghost var middle, established := rows, archives;
      var prunable := Due(w, live);
      NothingDue(w, live, budget, rows);
      if prunable != {} {
        s, deleted := Prune(w, live, budget);
        RewrittenOn(w, old(written), notes, written);
        KeptOn(w, table, middle, rows, [], removed[|old(removed)|..]);
        assert [] + removed[|old(removed)|..] == removed[|old(removed)|..];
        PrunedJustified(w, m, archives, live, removed[|old(removed)|..]);
        if !s.Go? { return; }
      }
      if m < Floor(w) && deleted == |prunable| {
        ghost var last, before := rows, archives;
        notes := written;
        s, expired := Expire(w, m);
        RewrittenOn(w, old(written), notes, written);
        KeptOn(w, table, last, rows, removed[|old(removed)|..], []);
        assert removed[|old(removed)|..] + [] == removed[|old(removed)|..];
        OneLessArchive(w, m, shelf, before);
        RetainedKeepsJustified(w, before, before - {m}, removed[|old(removed)|..]);
      }
      if calm { MonthFinished(w, m, live, budget, was, rows, shelf, established, archives, deleted, created, expired); }
    }

    // One month of a run, with the counters of the run so far.
    method RunMonth(w: World, m: Month, snapshot: map<Id, Row>, report: Report, ghost table: map<Id, Row>, ghost shelf: map<Month, Archive>,
                    ghost first: Gone, ghost todo: set<Month>, ghost calm: bool)
      returns (s: Signal, next: Report)
      requires Valid() && IsLeast(todo, m) && todo <= FinishedMonths(w, snapshot, shelf)
      requires |first| <= |removed| && removed[..|first|] == first && report.deleted == |removed| - |first| <= MAX_PRUNE_ROWS
      requires SoFar(w, snapshot, shelf, archives, removed[|first|..], table, rows, todo)
      requires calm ==> Calm(w, n) && Through(w, snapshot, shelf, archives, rows, report.deleted, report.blocked, todo)
      requires calm ==> OldestFirst(w, snapshot, rows, report.blocked)
      modifies this`rows, this`written, this`archives, this`removed, this`n
      ensures Valid() && Rewritten(w, old(written), written) && n >= old(n) && |todo - {m}| < |todo|
      ensures |first| <= |removed| && removed[..|first|] == first && next.deleted == |removed| - |first| <= MAX_PRUNE_ROWS
      ensures SoFar(w, snapshot, shelf, archives, removed[|first|..], table, rows, todo - {m})
      ensures calm ==> !s.Dead? && Through(w, snapshot, shelf, archives, rows, next.deleted, next.blocked, todo - {m})
      ensures calm ==> OldestFirst(w, snapshot, rows, next.blocked)
    {
      hide AuditStore.Valid, Rewritten, SoFar, OnlyMonth, Conflicts, LiveOf, Kept, Retained, AllJustified, Whole, Through, MonthRun;
      hide OldestFirst, MonthShows, FinishedMonths, Calm, Has, Present, AllHousekeeping, InMonth, Floor;
      var live := LiveOf(snapshot, w, m);
      LiveIsInMonth(snapshot, w, m);
      ghost var gone, before, middle := removed, archives, rows;
      if calm { StillThere(w, snapshot, shelf, archives, rows, report.deleted, report.blocked, todo, m); }
      var deleted, created, expired;
      s, deleted, created, expired := ArchiveMonth(w, m, live, MAX_PRUNE_ROWS - report.deleted);
      MonthEnds(w, m, snapshot, shelf, before, archives, first, gone, removed, table, middle, rows, todo);
      next := Tally(report, m, s, deleted, if created then |live| else 0, expired);
      hide Tally;
      if calm { CalmMonth(w, m, snapshot, shelf, before, archives, middle, rows, report, deleted, todo, s, created, expired, next, |live|); }
    }

    // The finished months in order. A month that fails is reported as blocked and the run goes on.
    method RunMonths(w: World, snapshot: map<Id, Row>, ghost table: map<Id, Row>)
      returns (s: Signal, report: Report, ghost left: set<Month>)
      requires Valid() && SoFar(w, snapshot, archives, archives, [], table, rows, FinishedMonths(w, snapshot, archives))
      requires Calm(w, n) ==> rows == snapshot
      modifies this`rows, this`written, this`archives, this`removed, this`n
      ensures Valid() && Rewritten(w, old(written), written)
      ensures report.deleted == |removed| - |old(removed)| <= MAX_PRUNE_ROWS && removed[..|old(removed)|] == old(removed)
      ensures SoFar(w, snapshot, old(archives), archives, removed[|old(removed)|..], table, rows, left)
      ensures n >= old(n) && (Calm(w, old(n)) ==>
        s.Go? && Through(w, snapshot, old(archives), archives, rows, report.deleted, report.blocked, {})
        && OldestFirst(w, snapshot, rows, report.blocked))
    {
      hide AuditStore.Valid, Rewritten, SoFar, OnlyMonth, Conflicts, LiveOf, Kept, Retained, AllJustified, Whole, Through, MonthRun;
      hide OldestFirst, MonthShows, FinishedMonths, Calm, Has, LeastOf, AuditStore.Valid;
      ghost var shelf, calm := archives, Calm(w, n);
      CalmOn(w, n);
      report := Report(0, 0, 0, {});
      s := Go;
      var todo := FinishedMonths(w, snapshot, archives);
      ThroughNothing(w, snapshot, shelf);
      if calm { OldestFirstAtStart(w, snapshot); }
      RewrittenSelf(w, written);
      assert removed[|old(removed)|..] == [];
      while todo != {}
        invariant n >= old(n) && (calm ==> Through(w, snapshot, shelf, archives, rows, report.deleted, report.blocked, todo))
        invariant calm ==> OldestFirst(w, snapshot, rows, report.blocked)
        invariant Valid() && Rewritten(w, old(written), written) && !s.Dead?
        invariant todo <= FinishedMonths(w, snapshot, shelf)
        invariant report.deleted == |removed| - |old(removed)| <= MAX_PRUNE_ROWS && removed[..|old(removed)|] == old(removed)
        invariant SoFar(w, snapshot, shelf, archives, removed[|old(removed)|..], table, rows, todo)
        decreases |todo|
      {
        var m := LeastOf(todo);
        ghost var notes := written;
        s, report := RunMonth(w, m, snapshot, report, table, shelf, old(removed), todo, calm);
        RewrittenOn(w, old(written), notes, written);
        todo := todo - {m};
        if s.Dead? { return s, report, todo; }
      }
      return Go, report, todo;
    }

    // One maintenance run over all finished months, oldest first; a run that exceeds a bound
    // changes nothing. A run that nothing disturbs gets through all of them.
    method Run(w: World) returns (s: Signal, report: Report, ghost seen: map<Id, Row>)
      requires Valid()
      modifies this`rows, this`written, this`archives, this`removed, this`n
      ensures Valid() && Rewritten(w, old(written), written)
      ensures report.deleted == |removed| - |old(removed)| <= MAX_PRUNE_ROWS && removed[..|old(removed)|] == old(removed)
      ensures Retained(w, old(archives), archives)
      ensures AllJustified(w, archives, removed[|old(removed)|..]) && Kept(w, old(rows), rows, removed[|old(removed)|..])
      ensures Kept(w, old(rows), seen, [])
      ensures forall m {:trigger Whole(w, seen, old(archives), archives, removed[|old(removed)|..], m)} ::
        Whole(w, seen, old(archives), archives, removed[|old(removed)|..], m)
      ensures n >= old(n) && (Calm(w, old(n)) && WithinBounds(w, old(rows), old(archives)) ==>
        s.Go? && Through(w, old(rows), old(archives), archives, rows, report.deleted, report.blocked, {})
        && OldestFirst(w, old(rows), rows, report.blocked))
    {
      hide AuditStore.Valid, Rewritten, SoFar, OnlyMonth, Conflicts, LiveOf, Kept, Retained, AllJustified, Whole, Through, OldestFirst, FinishedMonths, Calm;
      report := Report(0, 0, 0, {});
      ghost var table, shelf, notes := rows, archives, written;
      CalmOn(w, n);
      s := Next(w);
      var snapshot := rows;
      seen := snapshot;
      var todo := FinishedMonths(w, snapshot, archives);
      StartRun(w, table, seen, shelf, todo);
      assert removed[|old(removed)|..] == [];
      SoFarMeans(w, seen, shelf, archives, [], table, rows, todo);
      if !s.Go? { return; }
      if |snapshot| > MAX_SCAN_ROWS || |archives| > MAX_ARCHIVES || |todo| > MAX_ARCHIVES {
        s := Raised;
        return;
      }
      ghost var middle := written;
      ghost var left;
      s, report, left := RunMonths(w, snapshot, table);
      RewrittenOn(w, notes, middle, written);
      SoFarMeans(w, seen, shelf, archives, removed[|old(removed)|..], table, rows, left);
      if !s.Dead? { s := Go; }
    }

    // Any sequence of runs under one calendar and a clock that does not go back, each ending
    // well, blocked or dead, while others write: whatever was written last, before or during
    // the runs, is in the table or was deleted as old housekeeping, and then it is verbatim in
    // its month's archive unless the month is past the latest floor.
    method RunAll(ws: seq<World>)
      requires Valid() && forall i :: 0 <= i < |ws| ==> Calendar(ws[i].month) && ws[i].month == ws[0].month
      requires forall i, j :: 0 <= i < j < |ws| ==> ws[i].now <= ws[j].now
      requires ws != [] ==> AllJustified(ws[0], archives, removed)
      modifies this`rows, this`written, this`archives, this`removed, this`n
      ensures Valid() && RewrittenIn(ws, old(written), written)
      ensures |old(removed)| <= |removed| <= |old(removed)| + |ws| * MAX_PRUNE_ROWS && removed[..|old(removed)|] == old(removed)
      ensures KeptThrough(ws, old(rows), rows, removed[|old(removed)|..])
      ensures ws != [] ==> AllJustified(ws[|ws| - 1], archives, removed)
    {
      hide Kept, KeptThrough, Retained, AllJustified, Calendar, Whole, Rewritten, RewrittenIn, AuditStore.Valid;
      assert removed[|old(removed)|..] == [];
      KeptThroughNone(ws, rows, written);
      var i := 0;
      while i < |ws|
        invariant Valid() && RewrittenIn(ws, old(written), written)
        invariant i <= |ws| && |old(removed)| <= |removed| <= |old(removed)| + i * MAX_PRUNE_ROWS
        invariant removed[..|old(removed)|] == old(removed) && (i == 0 ==> removed == old(removed) && archives == old(archives))
        invariant KeptThrough(ws, old(rows), rows, removed[|old(removed)|..])
        invariant ws != [] ==> AllJustified(ws[if i > 0 then i - 1 else 0], archives, removed)
      {
        ghost var gone, table, shelf, notes := removed, rows, archives, written;
        var s, report;
        ghost var seen;
        s, report, seen := Run(ws[i]);
        RewrittenInOn(ws, i, old(written), notes, written);
        Longer(old(removed), gone, removed);
        KeptThroughOneMore(ws, i, old(rows), table, rows, gone[|old(removed)|..], removed[|gone|..]);
        LaterJustified(ws[if i > 0 then i - 1 else 0], ws[i], shelf, archives, gone);
        BothJustified(ws[i], archives, gone, removed[|gone|..]);
        assert removed == gone + removed[|gone|..];
        i := i + 1;
      }
    }
  }

  // The body of the transaction: it succeeds exactly if every row of the batch that is still in
  // the table is as it was archived, and then none of them is left.
  method DeleteRows(rows: map<Id, Row>, live: map<Id, Row>, ids: set<Id>)
    returns (ok: bool, table: map<Id, Row>, count: nat, ghost gone: Gone)
    requires forall id | id in ids :: id in live
    ensures ok <==> forall id | id in ids && id in rows :: rows[id] == live[id]
    ensures ok ==> table == rows - ids && (ids <= rows.Keys ==> count == |ids|)
    ensures ok ==> count == |gone| <= |ids| && (forall e | e in gone :: e.0 in ids && live[e.0] == e.1)
    ensures ok ==> forall i, j :: 0 <= i < j < |gone| ==> gone[i].0 != gone[j].0
    ensures ok ==> forall id | id in rows :: (id in table && table[id] == rows[id]) || (id, rows[id]) in gone
  {
    table, count, gone := rows, 0, [];
    var todo := ids;
    NoneDeleted(rows, live, ids);
    while todo != {}
      invariant Halfway(rows, live, ids, todo, table, gone) && count == |gone|
      decreases |todo|
    {
      hide Halfway;
      var id := LeastOf(todo);
      OneDecided(rows, live, ids, todo, table, gone, id);
      if id in table {
        if table[id] != live[id] { return false, table, count, gone; }
        table, gone, count := table - {id}, gone + [(id, live[id])], count + 1;
      }
      todo := todo - {id};
    }
    assert ids - todo == ids;
    ok := true;
  }

  // The rows of the batch outside `todo` agreed with what was archived and are gone from the table.
  ghost predicate Halfway(rows: map<Id, Row>, live: map<Id, Row>, ids: set<Id>, todo: set<Id>, table: map<Id, Row>, gone: Gone)
    requires forall id | id in ids :: id in live
  {
    && todo <= ids && table == rows - (ids - todo)
    && (forall id | id in ids - todo && id in rows :: rows[id] == live[id])
    && |gone| <= |ids| - |todo| && (ids <= rows.Keys ==> |gone| == |ids| - |todo|)
    && (forall e | e in gone :: e.0 in ids - todo && live[e.0] == e.1)
    && (forall i, j :: 0 <= i < j < |gone| ==> gone[i].0 != gone[j].0)
    && (forall id | id in rows :: (id in table && table[id] == rows[id]) || (id, rows[id]) in gone)
  }

  lemma NoneDeleted(rows: map<Id, Row>, live: map<Id, Row>, ids: set<Id>)
    requires forall id | id in ids :: id in live
    ensures Halfway(rows, live, ids, ids, rows, [])
  {
    assert rows - (ids - ids) == rows;
  }

  lemma OneDecided(rows: map<Id, Row>, live: map<Id, Row>, ids: set<Id>, todo: set<Id>, table: map<Id, Row>, gone: Gone, id: Id)
    requires forall id | id in ids :: id in live
    requires Halfway(rows, live, ids, todo, table, gone) && id in todo
    ensures id in ids && (id in table <==> id in rows) && (id in rows ==> table[id] == rows[id]) && |todo - {id}| < |todo|
    ensures id !in table ==> Halfway(rows, live, ids, todo - {id}, table, gone)
    ensures id in table && table[id] == live[id] ==> Halfway(rows, live, ids, todo - {id}, table - {id}, gone + [(id, live[id])])
  {
    OneLeftOut(rows, table, ids, todo, id);
    if id !in table {
      assert id !in rows;
    } else if table[id] == live[id] {
      MoreGone(rows, table, gone, id);
    }
  }

  lemma MoreGone(rows: map<Id, Row>, table: map<Id, Row>, gone: Gone, id: Id)
    requires forall k | k in rows :: (k in table && table[k] == rows[k]) || (k, rows[k]) in gone
    requires id in rows
    ensures forall k | k in rows :: (k in table - {id} && (table - {id})[k] == rows[k]) || (k, rows[k]) in gone + [(id, rows[id])]
  {
  }

  lemma OneLeftOut(rows: map<Id, Row>, table: map<Id, Row>, ids: set<Id>, todo: set<Id>, id: Id)
    requires todo <= ids && id in todo && table == rows - (ids - todo)
    ensures (id in table <==> id in rows) && (id in rows ==> table[id] == rows[id])
    ensures (if id in table then table - {id} else table) == rows - (ids - (todo - {id}))
    ensures |todo - {id}| == |todo| - 1 && ids - (todo - {id}) == (ids - todo) + {id}
  {
    assert ids - (todo - {id}) == (ids - todo) + {id};
    assert todo == (todo - {id}) + {id};
  }

  // The due rows outside `todo` are gone, and come before those in it.
  ghost predicate PruneSoFar(due: set<Id>, todo: set<Id>, was: map<Id, Row>, rows: map<Id, Row>, deleted: nat, taken: nat) {
    && todo <= due <= was.Keys && rows == was - (due - todo) && deleted == taken == |due| - |todo|
    && forall a, b | a in due - todo && b in todo :: a < b
  }

  // What one batch adds to the pruning so far.
  lemma BatchEnds(w: World, live: map<Id, Row>, first: Gone, gone: Gone, removed: Gone, was: map<Id, Row>, table: map<Id, Row>, rows: map<Id, Row>,
                  todo: set<Id>, batch: set<Id>, size: nat, deleted: nat, taken: nat, calm: bool)
    requires |first| <= |gone| <= |removed| && gone[..|first|] == first && removed[..|gone|] == gone
    requires Kept(w, was, table, gone[|first|..]) && Kept(w, table, rows, removed[|gone|..])
    requires todo <= Due(w, live) && todo != {} && size > 0 && batch == FirstOf(todo, size)
    requires forall e | e in gone[|first|..] :: e.0 in live && live[e.0] == e.1 && Prunable(w, e.1)
    requires forall e | e in removed[|gone|..] :: e.0 in batch && e.0 in live && live[e.0] == e.1
    requires calm ==> PruneSoFar(Due(w, live), todo, was, table, deleted, taken) && rows == table - batch
    ensures removed[..|first|] == first && Kept(w, was, rows, removed[|first|..]) && |todo - batch| < |todo|
    ensures forall e | e in removed[|first|..] :: e.0 in live && live[e.0] == e.1 && Prunable(w, e.1)
    ensures calm ==> PruneSoFar(Due(w, live), todo - batch, was, rows, deleted + |batch|, taken + |batch|)
  {
    Longer(first, gone, removed);
    KeptOn(w, was, table, rows, gone[|first|..], removed[|gone|..]);
    Smaller(todo, batch);
    hide Kept, PruneSoFar, FirstOf;
    if calm { PruneOneMore(Due(w, live), todo, batch, was, table, rows, deleted, taken, size); }
  }

  lemma PruneNothing(w: World, live: map<Id, Row>, rows: map<Id, Row>)
    requires Has(rows, live)
    ensures PruneSoFar(Due(w, live), Due(w, live), rows, rows, 0, 0)
  {
    assert rows - (Due(w, live) - Due(w, live)) == rows;
  }

  lemma BatchIsThere(w: World, live: map<Id, Row>, todo: set<Id>, batch: set<Id>, was: map<Id, Row>, rows: map<Id, Row>, deleted: nat, taken: nat)
    requires Has(was, live) && PruneSoFar(Due(w, live), todo, was, rows, deleted, taken) && batch <= todo
    ensures forall id | id in batch :: id in rows && rows[id] == live[id]
  {
  }

  lemma PruneOneMore(due: set<Id>, todo: set<Id>, batch: set<Id>, was: map<Id, Row>, table: map<Id, Row>, rows: map<Id, Row>, deleted: nat, taken: nat, k: nat)
    requires PruneSoFar(due, todo, was, table, deleted, taken) && batch == FirstOf(todo, k) && rows == table - batch
    ensures PruneSoFar(due, todo - batch, was, rows, deleted + |batch|, taken + |batch|)
  {
    FirstComeFirst(todo, k);
    hide FirstOf;
    TakenOff(due, todo, batch);
    assert was - ((due - todo) + batch) == (was - (due - todo)) - batch;
  }

  lemma TakenOff(due: set<Id>, todo: set<Id>, batch: set<Id>)
    requires batch <= todo <= due
    ensures due - (todo - batch) == (due - todo) + batch && |todo - batch| == |todo| - |batch| && |due - todo| == |due| - |todo|
  {
    assert todo == batch + (todo - batch) && due == todo + (due - todo);
  }

  lemma PruneAtLast(w: World, live: map<Id, Row>, todo: set<Id>, budget: nat, was: map<Id, Row>, rows: map<Id, Row>, deleted: nat, taken: nat)
    requires PruneSoFar(Due(w, live), todo, was, rows, deleted, taken) && (todo == {} || taken == budget) && taken <= budget
    ensures PrunedTo(w, live, budget, was, rows, deleted)
  {
    var due := Due(w, live);
    hide Due;
    TakenOff(due, todo, {});
    GoneIs(due, todo, was, rows);
  }

  lemma GoneIs(due: set<Id>, todo: set<Id>, was: map<Id, Row>, rows: map<Id, Row>)
    requires todo <= due <= was.Keys && rows == was - (due - todo)
    ensures due - rows.Keys == due - todo
  {
    forall id ensures id in due - rows.Keys <==> id in due - todo {}
  }

  // ---------- sequences of runs ----------

  ghost predicate KeptThrough(ws: seq<World>, was: map<Id, Row>, rows: map<Id, Row>, gone: Gone) {
    forall id {:trigger id in was} :: id in was && (forall i :: 0 <= i < |ws| ==> !Touched(ws[i], id)) ==>
      (id in rows && rows[id] == was[id]) || (id, was[id]) in gone
  }

  lemma KeptThroughNone(ws: seq<World>, rows: map<Id, Row>, written: map<Id, Row>)
    ensures KeptThrough(ws, rows, rows, []) && RewrittenIn(ws, written, written)
  {
  }

  lemma KeptThroughOneMore(ws: seq<World>, i: nat, was: map<Id, Row>, table: map<Id, Row>, rows: map<Id, Row>, gone: Gone, more: Gone)
    requires i < |ws| && KeptThrough(ws, was, table, gone) && Kept(ws[i], table, rows, more)
    ensures KeptThrough(ws, was, rows, gone + more)
  {
    forall id | id in was && (forall k :: 0 <= k < |ws| ==> !Touched(ws[k], id))
      ensures (id in rows && rows[id] == was[id]) || (id, was[id]) in gone + more
    {
      assert !Touched(ws[i], id);
      assert id in was && ((id in table && table[id] == was[id]) || (id, was[id]) in gone);
      assert id in table ==> (id in rows && rows[id] == table[id]) || (id, table[id]) in more;
    }
  }

  // A deletion that was justified stays justified as the clock and the floor move on.
  lemma LaterJustified(v: World, w: World, shelf: map<Month, Archive>, archives: map<Month, Archive>, gone: Gone)
    requires Calendar(w.month) && v.month == w.month && v.now <= w.now
    requires AllJustified(v, shelf, gone) && Retained(w, shelf, archives)
    ensures AllJustified(w, archives, gone)
  {
    assert w.month(v.now) <= w.month(w.now);
    forall e | e in gone ensures Justified(w, archives, e.0, e.1) { assert Justified(v, shelf, e.0, e.1); }
  }

  lemma BothJustified(w: World, archives: map<Month, Archive>, gone: Gone, more: Gone)
    requires gone == [] || AllJustified(w, archives, gone)
    requires AllJustified(w, archives, more)
    ensures AllJustified(w, archives, gone + more)
  {
    forall e | e in gone + more ensures Justified(w, archives, e.0, e.1) {}
  }

  // So workflow evidence never leaves the table, and a row at or after the floor is never lost,
  // whoever wrote it last and when.
  lemma NothingIsLost(store: AuditStore, w: World, id: Id)
    requires store.Valid() && AllJustified(w, store.archives, store.removed) && id in store.written
    ensures store.written[id].pinned ==> id in store.rows && store.rows[id] == store.written[id]
    ensures var r := store.written[id];
      w.month(r.at) >= w.month(w.now) - 12 ==> (id in store.rows && store.rows[id] == r) || Archived(store.archives, w.month(r.at), id, r)
  {
    if (id, store.written[id]) in store.removed { assert Justified(w, store.archives, id, store.written[id]); }
  }

  // The finished months that have rows or an archive.
  function FinishedMonths(w: World, rows: map<Id, Row>, archives: map<Month, Archive>): (ms: set<Month>)
    ensures forall m | m in ms :: m < w.month(w.now)
  {
    var held := set id | id in rows && w.month(rows[id].at) < w.month(w.now) :: w.month(rows[id].at);
    held + set m | m in archives && m < w.month(w.now)
  }

  // What the run has kept so far, with the months `todo` still to come.
  ghost predicate SoFar(w: World, seen: map<Id, Row>, shelf: map<Month, Archive>, archives: map<Month, Archive>, gone: Gone,
                        table: map<Id, Row>, rows: map<Id, Row>, todo: set<Month>)
  {
    && Retained(w, shelf, archives) && AllJustified(w, archives, gone) && Kept(w, table, rows, gone) && Kept(w, table, seen, [])
    && (forall m {:trigger Whole(w, seen, shelf, archives, gone, m)} :: Whole(w, seen, shelf, archives, gone, m))
    && (forall m | m in todo :: (m in archives <==> m in shelf) && (m in shelf ==> archives[m] == shelf[m]))
    && (forall e | e in gone :: w.month(e.1.at) !in todo)
  }

  lemma SoFarMeans(w: World, seen: map<Id, Row>, shelf: map<Month, Archive>, archives: map<Month, Archive>, gone: Gone,
                   table: map<Id, Row>, rows: map<Id, Row>, todo: set<Month>)
    requires SoFar(w, seen, shelf, archives, gone, table, rows, todo)
    ensures Retained(w, shelf, archives) && AllJustified(w, archives, gone) && Kept(w, table, rows, gone) && Kept(w, table, seen, [])
    ensures forall m {:trigger Whole(w, seen, shelf, archives, gone, m)} :: Whole(w, seen, shelf, archives, gone, m)
  {
  }

  // A month whose rows no longer agree with its archive is left exactly as it was found.
  ghost predicate Whole(w: World, seen: map<Id, Row>, shelf: map<Month, Archive>, archives: map<Month, Archive>, gone: Gone, m: Month) {
    m in shelf && Conflicts(shelf[m], LiveOf(seen, w, m)) ==>
      m in archives && archives[m] == shelf[m] && forall e | e in gone :: !InMonth(w, e.1, m)
  }

  lemma StartRun(w: World, table: map<Id, Row>, seen: map<Id, Row>, shelf: map<Month, Archive>, todo: set<Month>)
    requires Kept(w, table, seen, [])
    ensures SoFar(w, seen, shelf, shelf, [], table, seen, todo)
  {
  }

  lemma LiveIsInMonth(rows: map<Id, Row>, w: World, m: Month)
    ensures forall id | id in LiveOf(rows, w, m) :: InMonth(w, LiveOf(rows, w, m)[id], m)
  {
  }

  lemma CalmOn(w: World, n: nat)
    ensures Calm(w, n) ==> forall k: nat {:trigger Calm(w, k)} :: k >= n ==> Calm(w, k)
  {
  }

  lemma MonthBlocked(w: World, m: Month, live: map<Id, Row>, budget: nat, was: map<Id, Row>, shelf: map<Month, Archive>)
    requires Blocks(shelf, m, live)
    ensures MonthRun(w, m, live, budget, was, was, shelf, shelf, Raised, 0, false, false)
  {
  }

  lemma MonthFinished(w: World, m: Month, live: map<Id, Row>, budget: nat, was: map<Id, Row>, rows: map<Id, Row>,
                      shelf: map<Month, Archive>, established: map<Month, Archive>, archives: map<Month, Archive>, deleted: nat, created: bool, expired: bool)
    requires !Blocks(shelf, m, live) && PrunedTo(w, live, budget, was, rows, deleted)
    requires (created <==> m !in shelf) && established == (if created then shelf[m := Archive(live)] else shelf)
    requires m in established && established[m].Archive?
    requires expired <==> m < Floor(w) && deleted == |Due(w, live)| && AllHousekeeping(established[m].rows) && !Present(w, rows, m)
    requires archives == if expired then established - {m} else established
    ensures MonthRun(w, m, live, budget, was, rows, shelf, archives, Go, deleted, created, expired)
  {
    hide PrunedTo, Blocks, AllHousekeeping, Present, Due;
    if m in shelf {
      assert shelf[m := shelf[m]] == shelf;
    } else {
      assert shelf[m := Archive(live)] - {m} == shelf - {m};
    }
  }

  lemma NothingDue(w: World, live: map<Id, Row>, budget: nat, rows: map<Id, Row>)
    ensures Due(w, live) == {} ==> PrunedTo(w, live, budget, rows, rows, 0)
  {
    if Due(w, live) == {} { assert rows - (Due(w, live) - rows.Keys) == rows; }
  }

  // What one month adds to the deletions of the whole run.
  lemma MonthEnds(w: World, m: Month, seen: map<Id, Row>, shelf: map<Month, Archive>, before: map<Month, Archive>, archives: map<Month, Archive>,
                  first: Gone, gone: Gone, removed: Gone, table: map<Id, Row>, middle: map<Id, Row>, rows: map<Id, Row>, todo: set<Month>)
    requires |first| <= |gone| <= |removed| && gone[..|first|] == first && removed[..|gone|] == gone
    requires SoFar(w, seen, shelf, before, gone[|first|..], table, middle, todo) && m in todo
    requires Retained(w, before, archives) && OnlyMonth(m, before, archives)
    requires AllJustified(w, archives, removed[|gone|..]) && Kept(w, middle, rows, removed[|gone|..])
    requires forall e | e in removed[|gone|..] :: InMonth(w, e.1, m)
    requires m in before && Conflicts(before[m], LiveOf(seen, w, m)) ==> archives == before && removed == gone
    ensures removed[..|first|] == first && SoFar(w, seen, shelf, archives, removed[|first|..], table, rows, todo - {m}) && |todo - {m}| < |todo|
  {
    Longer(first, gone, removed);
    Smaller(todo, {m});
    hide SoFar, Retained, AllJustified, Kept, OnlyMonth, Conflicts, LiveOf, InMonth;
    MonthDone(w, m, seen, shelf, before, archives, gone[|first|..], removed[|gone|..], table, middle, rows, todo);
  }

  // What one finished month adds to the run so far.
  lemma MonthDone(w: World, m: Month, seen: map<Id, Row>, shelf: map<Month, Archive>, before: map<Month, Archive>, archives: map<Month, Archive>,
                  gone: Gone, more: Gone, table: map<Id, Row>, middle: map<Id, Row>, rows: map<Id, Row>, todo: set<Month>)
    requires SoFar(w, seen, shelf, before, gone, table, middle, todo) && m in todo
    requires Retained(w, before, archives) && OnlyMonth(m, before, archives)
    requires AllJustified(w, archives, more) && Kept(w, middle, rows, more)
    requires forall e | e in more :: InMonth(w, e.1, m)
    requires m in before && Conflicts(before[m], LiveOf(seen, w, m)) ==> archives == before && more == []
    ensures SoFar(w, seen, shelf, archives, gone + more, table, rows, todo - {m})
  {
    hide Kept;
    KeptOn(w, table, middle, rows, gone, more);
    RetainedKeepsJustified(w, before, archives, gone);
    forall k ensures Whole(w, seen, shelf, archives, gone + more, k) {
      assert Whole(w, seen, shelf, before, gone, k);
    }
  }

  predicate AllHousekeeping(rows: map<Id, Row>) { forall id | id in rows :: !rows[id].pinned }

  predicate Present(w: World, rows: map<Id, Row>, m: Month) { exists id | id in rows :: InMonth(w, rows[id], m) }

  predicate Conflicts(a: Archive, live: map<Id, Row>) { a.Damaged? || exists id | id in live :: id !in a.rows || a.rows[id] != live[id] }

  lemma AgreesHolds(archives: map<Month, Archive>, m: Month, live: map<Id, Row>)
    requires m in archives
    ensures !Conflicts(archives[m], live) ==> archives[m].Archive? && forall id | id in live :: Archived(archives, m, id, live[id])
  {
  }

  ghost predicate OnlyMonth(m: Month, a: map<Month, Archive>, b: map<Month, Archive>) {
    forall k | k != m :: (k in a <==> k in b) && (k in a ==> a[k] == b[k])
  }

  lemma KeptSelf(w: World, rows: map<Id, Row>)
    ensures Kept(w, rows, rows, [])
  {
  }

  lemma SameArchives(w: World, m: Month, a: map<Month, Archive>)
    ensures Retained(w, a, a) && OnlyMonth(m, a, a)
  {
  }

  lemma NothingGone(w: World, archives: map<Month, Archive>, removed: Gone)
    ensures removed[|removed|..] == [] && AllJustified(w, archives, [])
  {
  }

  lemma OneMoreArchive(w: World, m: Month, a: map<Month, Archive>, live: map<Id, Row>)
    requires m !in a
    ensures Retained(w, a, a[m := Archive(live)]) && OnlyMonth(m, a, a[m := Archive(live)])
  {
  }

  lemma OneLessArchive(w: World, m: Month, a: map<Month, Archive>, b: map<Month, Archive>)
    requires Retained(w, a, b) && OnlyMonth(m, a, b) && m < Floor(w)
    ensures Retained(w, a, b - {m}) && Retained(w, b, b - {m}) && OnlyMonth(m, a, b - {m})
  {
  }

  lemma PrunedJustified(w: World, m: Month, archives: map<Month, Archive>, live: map<Id, Row>, gone: Gone)
    requires m < w.month(w.now) && forall id | id in live :: InMonth(w, live[id], m) && Archived(archives, m, id, live[id])
    requires forall e | e in gone :: e.0 in live && live[e.0] == e.1 && Prunable(w, e.1)
    ensures AllJustified(w, archives, gone)
  {
    forall e | e in gone ensures Justified(w, archives, e.0, e.1) { assert InMonth(w, live[e.0], m); }
  }

  lemma KeptOn(w: World, a: map<Id, Row>, b: map<Id, Row>, c: map<Id, Row>, first: Gone, second: Gone)
    requires Kept(w, a, b, first) && Kept(w, b, c, second)
    ensures Kept(w, a, c, first + second)
  {
    forall id | id in a && !Touched(w, id)
      ensures (id in c && c[id] == a[id]) || (id, a[id]) in first + second
    {
      assert id in a && ((id in b && b[id] == a[id]) || (id, a[id]) in first);
      assert id in b ==> (id in c && c[id] == b[id]) || (id, b[id]) in second;
    }
  }

  lemma Longer(a: Gone, b: Gone, c: Gone)
    requires |a| <= |b| <= |c| && b[..|a|] == a && c[..|b|] == b
    ensures c[..|a|] == a && c[|a|..] == b[|a|..] + c[|b|..]
  {
  }

  lemma Smaller(todo: set<nat>, batch: set<nat>)
    requires batch <= todo && batch != {}
    ensures |todo - batch| < |todo|
  {
  }
}
