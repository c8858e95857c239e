// Monthly maintenance of closed service segments: archive, retire raw files, expire archives.
module ServiceLogs {
  import opened Options
  import opened FilePlans

  type Month = nat

  const DAY := 86_400
  const RAW_DAYS := 30
  const FLOOR_MONTHS := 3
  const MAX_ARCHIVE_FILES := 20_000
  const MAX_DIRECTORY_ENTRIES := 100_000

  // A closed segment's name carries the instant it was closed at.
  datatype Name = Name(at: int, unique: nat)

  type Segments = map<Name, Bytes>

  // The verified content of an archive, or a file that does not verify.
  datatype Shelf = Verified(files: Segments) | Damaged

  type Shelves = map<Month, Shelf>

  // The clock, the KST calendar, segments closed or changed by others before the n-th
  // operation, operations that fail, and those at which the process dies.
  datatype World = World(now: int, month: int -> Month, others: nat -> Segments, fails: nat -> bool, dies: nat -> bool)

  ghost predicate Calendar(month: int -> Month) { forall a, b {:trigger month(a), month(b)} :: a <= b ==> month(a) <= month(b) }

  function MonthOf(w: World, s: Name): Month { w.month(s.at) }

  function Floor(w: World): int { w.month(w.now) - FLOOR_MONTHS }

  predicate PastRaw(w: World, s: Name) { s.at < w.now - RAW_DAYS * DAY }

  function InMonth(w: World, raw: Segments, m: Month): Segments { map s | s in raw && MonthOf(w, s) == m :: raw[s] }

  // After operation `n` nobody else writes, nothing fails and the process lives.
  ghost predicate Calm(w: World, n: nat) { forall k: nat :: k > n ==> w.others(k) == map[] && !w.fails(k) && !w.dies(k) }

  // ---------- what survives ----------

  ghost predicate Saved(w: World, archives: Shelves, s: Name, content: Bytes) {
    var m := MonthOf(w, s);
    m in archives && archives[m].Verified? && s in archives[m].files && archives[m].files[s] == content
  }

  ghost predicate Touched(w: World, s: Name) { exists k :: s in w.others(k) }

  // A segment nobody else changed is still there, or it is older than the raw cutoff and in a
  // verified archive or past the floor.
  ghost predicate Safe(w: World, was: Segments, raw: Segments, archives: Shelves) {
    forall s {:trigger s in was} :: s in was && !Touched(w, s) ==>
      (s in raw && raw[s] == was[s]) || (PastRaw(w, s) && (Saved(w, archives, s, was[s]) || MonthOf(w, s) < Floor(w)))
  }

  ghost predicate Retained(w: World, a: Shelves, b: Shelves) {
    && (forall m | m in a && m in b :: b[m] == a[m])
    && (forall m | m in a && m !in b :: m < Floor(w))
  }

  lemma RetainedSafe(w: World, was: Segments, raw: Segments, a: Shelves, b: Shelves)
    requires Safe(w, was, raw, a) && Retained(w, a, b)
    ensures Safe(w, was, raw, b)
  {
    forall s | s in was && !Touched(w, s) ensures (s in raw && raw[s] == was[s]) || (PastRaw(w, s) && (Saved(w, b, s, was[s]) || MonthOf(w, s) < Floor(w))) {
      assert s in was;
    }
  }

  lemma OthersSafe(w: World, was: Segments, raw: Segments, archives: Shelves, k: nat)
    requires Safe(w, was, raw, archives)
    ensures Safe(w, was, raw + w.others(k), archives)
  {
    forall s | s in was && !Touched(w, s)
      ensures (s in raw + w.others(k) && (raw + w.others(k))[s] == was[s]) || (PastRaw(w, s) && (Saved(w, archives, s, was[s]) || MonthOf(w, s) < Floor(w)))
    {
      assert s in was && s !in w.others(k);
    }
  }

  // ---------- the plan ----------

  // What is to be archived and which raw segments may go.
  datatype Plan = Plan(create: map<Month, Segments>, retire: set<Name>, expire: set<Month>)

  // A finished month is archived already and every raw segment of it is there unchanged.
  predicate Agrees(w: World, raw: Segments, shelf: Shelf, m: Month) {
    shelf.Verified? && forall s | s in raw && MonthOf(w, s) == m :: s in shelf.files && shelf.files[s] == raw[s]
  }

  predicate AllAgree(w: World, raw: Segments, archives: Shelves) {
    && (forall m | m in archives :: archives[m].Verified?)
    && (forall s | s in raw && MonthOf(w, s) < w.month(w.now) && MonthOf(w, s) in archives :: Agrees(w, raw, archives[MonthOf(w, s)], MonthOf(w, s)))
  }

  ghost predicate SoundPlan(w: World, raw: Segments, archives: Shelves, p: Plan) {
    && (forall m | m in p.create :: m !in archives && Floor(w) <= m < w.month(w.now) && p.create[m] == InMonth(w, raw, m))
    && (forall s | s in p.retire ::
          && s in raw && PastRaw(w, s) && MonthOf(w, s) < w.month(w.now)
          && (MonthOf(w, s) in p.create || Saved(w, archives, s, raw[s])))
    && (forall m | m in p.expire :: m in archives && m < Floor(w) && forall s | s in raw && MonthOf(w, s) == m :: s in p.retire)
  }

  // A month is archived exactly if it is finished, not past the floor, not archived yet and has
  // segments; a raw segment is retired exactly if it is older than the cutoff and its month is
  // archived before or now; an archive expires exactly if it is past the floor and no raw segment
  // of its month stays.
  ghost predicate CompletePlan(w: World, raw: Segments, archives: Shelves, p: Plan) {
    && (forall m :: m in p.create <==> m !in archives && Floor(w) <= m && m in FinishedMonths(w, raw))
    && (forall m | m in p.create :: p.create[m] == InMonth(w, raw, m))
    && (forall s :: s in p.retire <==>
          s in raw && MonthOf(w, s) < w.month(w.now) && s.at < w.now - 30 * DAY && (MonthOf(w, s) in archives || Floor(w) <= MonthOf(w, s)))
    && (forall m :: m in p.expire <==> m in archives && m < w.month(w.now) - 3 && forall s | s in raw && MonthOf(w, s) == m :: s in p.retire)
  }

  datatype Signal = Go | Raised | Dead

  datatype Planned = Ready(plan: Plan) | Refused

  // What planning the months `done` has established.
  ghost predicate PlannedFor(w: World, raw: Segments, archives: Shelves, done: set<Month>, create: map<Month, Segments>, retire: set<Name>) {
    && (forall s | s in raw && MonthOf(w, s) in done && MonthOf(w, s) in archives :: Agrees(w, raw, archives[MonthOf(w, s)], MonthOf(w, s)))
    && (forall m | m in create :: m !in archives && Floor(w) <= m < w.month(w.now) && create[m] == InMonth(w, raw, m))
    && (forall s | s in retire ::
          && s in raw && PastRaw(w, s) && MonthOf(w, s) < w.month(w.now)
          && (MonthOf(w, s) in create || Saved(w, archives, s, raw[s])))
  }

  // Nothing has been left out of the plan for the months `done`.
  ghost predicate NothingMissed(w: World, raw: Segments, archives: Shelves, done: set<Month>, create: map<Month, Segments>, retire: set<Name>) {
    && (forall m :: m in create <==> m in done && m !in archives && Floor(w) <= m)
    && (forall s :: s in retire <==> s in raw && MonthOf(w, s) in done && PastRaw(w, s) && (MonthOf(w, s) in archives || Floor(w) <= MonthOf(w, s)))
  }

  lemma MissNothing(w: World, raw: Segments, archives: Shelves, done: set<Month>, create: map<Month, Segments>, retire: set<Name>, m: Month)
    requires NothingMissed(w, raw, archives, done, create, retire) && m !in done
    ensures m !in archives && m < Floor(w) ==> NothingMissed(w, raw, archives, done + {m}, create, retire)
    ensures m in archives || m >= Floor(w) ==>
      NothingMissed(w, raw, archives, done + {m}, if m in archives then create else create[m := InMonth(w, raw, m)],
                    retire + set s | s in raw && MonthOf(w, s) == m && PastRaw(w, s))
  {
  }

  lemma PlanComplete(w: World, raw: Segments, archives: Shelves, done: set<Month>, create: map<Month, Segments>, retire: set<Name>)
    requires NothingMissed(w, raw, archives, done, create, retire) && done == FinishedMonths(w, raw)
    requires forall m | m in create :: create[m] == InMonth(w, raw, m)
    ensures CompletePlan(w, raw, archives, Plan(create, retire, Expirable(w, raw, archives, retire)))
  {
    forall s | s in raw && MonthOf(w, s) < w.month(w.now) ensures MonthOf(w, s) in done {}
    forall s | s in raw && MonthOf(w, s) in done ensures MonthOf(w, s) < w.month(w.now) {}
    hide InMonth, FinishedMonths;
  }

  lemma PlanMonth(w: World, raw: Segments, archives: Shelves, done: set<Month>, create: map<Month, Segments>, retire: set<Name>, m: Month)
    requires PlannedFor(w, raw, archives, done, create, retire) && m < w.month(w.now) && (m in archives ==> Agrees(w, raw, archives[m], m))
    ensures m !in archives && m < Floor(w) ==> PlannedFor(w, raw, archives, done + {m}, create, retire)
    ensures m in archives || m >= Floor(w) ==>
      PlannedFor(w, raw, archives, done + {m}, if m in archives then create else create[m := InMonth(w, raw, m)],
                 retire + set s | s in raw && MonthOf(w, s) == m && PastRaw(w, s))
  {
  }

  lemma PlanReady(w: World, raw: Segments, archives: Shelves, done: set<Month>, create: map<Month, Segments>, retire: set<Name>)
    requires PlannedFor(w, raw, archives, done, create, retire) && forall m | m in archives :: archives[m].Verified?
    requires done == FinishedMonths(w, raw)
    ensures AllAgree(w, raw, archives)
    ensures SoundPlan(w, raw, archives, Plan(create, retire, Expirable(w, raw, archives, retire)))
  {
    hide Agrees, Saved;
  }

  function FinishedMonths(w: World, raw: Segments): (ms: set<Month>)
    ensures forall m | m in ms :: m < w.month(w.now)
  {
    set s | s in raw && MonthOf(w, s) < w.month(w.now) :: MonthOf(w, s)
  }

  lemma Disagrees(w: World, raw: Segments, archives: Shelves, m: Month)
    requires m in FinishedMonths(w, raw) && m in archives && !Agrees(w, raw, archives[m], m)
    ensures !AllAgree(w, raw, archives)
  {
  }

  // The archives past the floor whose raw segments, if any, are all being retired.
  function Expirable(w: World, raw: Segments, archives: Shelves, retire: set<Name>): set<Month> {
    set m | m in archives && m < Floor(w) && forall s | s in raw && MonthOf(w, s) == m :: s in retire
  }

  // Every existing archive is verified and every finished month compared before anything is
  // created or removed; one late or changed segment refuses the whole run.
  method MakePlan(w: World, raw: Segments, archives: Shelves) returns (p: Planned)
    ensures p.Ready? <==> AllAgree(w, raw, archives)
    ensures p.Ready? ==> SoundPlan(w, raw, archives, p.plan) && CompletePlan(w, raw, archives, p.plan)
  {
    hide Agrees, Saved, PlannedFor, SoundPlan, CompletePlan, NothingMissed, AllAgree, Expirable, InMonth, PastRaw, FinishedMonths;
    DamageDisagrees(w, raw, archives);
    if exists m | m in archives :: archives[m].Damaged? { return Refused; }
    var months := FinishedMonths(w, raw);
    var todo := months;
    var create: map<Month, Segments> := map[];
    var retire: set<Name> := {};
    ghost var done: set<Month> := {};
    NothingPlanned(w, raw, archives);
    while todo != {}
      invariant todo <= months && done == months - todo && PlannedFor(w, raw, archives, done, create, retire)
      invariant NothingMissed(w, raw, archives, done, create, retire)
      decreases |todo|
    {
      var m :| m in todo;
      if m in archives && !Agrees(w, raw, archives[m], m) {
        Disagrees(w, raw, archives, m);
        return Refused;
      }
      PlanMonth(w, raw, archives, done, create, retire, m);
      MissNothing(w, raw, archives, done, create, retire, m);
      if m in archives || m >= Floor(w) {
        if m !in archives { create := create[m := InMonth(w, raw, m)]; }
        retire := retire + set s | s in raw && MonthOf(w, s) == m && PastRaw(w, s);
      }
      todo, done := todo - {m}, done + {m};
    }
    assert done == months;
    PlanReady(w, raw, archives, done, create, retire);
    PlannedContents(w, raw, archives, done, create, retire);
    PlanComplete(w, raw, archives, done, create, retire);
    return Ready(Plan(create, retire, Expirable(w, raw, archives, retire)));
  }

  lemma DamageDisagrees(w: World, raw: Segments, archives: Shelves)
    ensures (exists m | m in archives :: archives[m].Damaged?) ==> !AllAgree(w, raw, archives)
  {
  }

  lemma NothingPlanned(w: World, raw: Segments, archives: Shelves)
    ensures PlannedFor(w, raw, archives, {}, map[], {}) && NothingMissed(w, raw, archives, {}, map[], {})
  {
  }

  lemma PlannedContents(w: World, raw: Segments, archives: Shelves, done: set<Month>, create: map<Month, Segments>, retire: set<Name>)
    requires PlannedFor(w, raw, archives, done, create, retire)
    ensures forall m | m in create :: create[m] == InMonth(w, raw, m)
  {
  }

  // The new archives of the months `done` beside the old ones.
  function With(shelf: Shelves, create: map<Month, Segments>, done: set<Month>): Shelves {
    shelf + map m | m in done && m in create :: Verified(create[m])
  }

  // The archives as an undisturbed run leaves them.
  function Carried(archives: Shelves, p: Plan): Shelves { (archives + map m | m in p.create :: Verified(p.create[m])) - p.expire }

  // Every one of the segments is there unchanged.
  predicate Holds(raw: Segments, files: Segments) { forall f | f in files :: f in raw && raw[f] == files[f] }

  class LogStore {
    var raw: Segments
    var archives: Shelves
    var n: nat

    constructor (raw: Segments)
      ensures this.raw == raw && archives == map[]
    {
      this.raw, archives, n := raw, map[], 0;
    }

    // Others close or change segments, then the next operation runs, fails or finds the process dead.
    method Next(w: World) returns (s: Signal)
      modifies this`raw, this`n
      ensures forall was :: Safe(w, was, old(raw), archives) ==> Safe(w, was, raw, archives)
      ensures n > old(n) && (Calm(w, old(n)) ==> s.Go? && raw == old(raw))
    {
      n := n + 1;
      if w.dies(n) { return Dead; }
      forall was | Safe(w, was, raw, archives) ensures Safe(w, was, raw + w.others(n), archives) { OthersSafe(w, was, raw, archives, n); }
      raw := raw + w.others(n);
      s := if w.fails(n) then Raised else Go;
    }

    // Publish the archive of one month after comparing every segment with the plan again.
    method CreateArchive(w: World, m: Month, files: Segments) returns (s: Signal)
      requires m !in archives
      modifies this`raw, this`archives, this`n
      ensures archives == old(archives) || archives == old(archives)[m := Verified(files)]
      ensures s.Go? ==> m in archives && archives[m] == Verified(files)
      ensures forall was :: Safe(w, was, old(raw), old(archives)) ==> Safe(w, was, raw, archives)
      ensures n >= old(n) && (Calm(w, old(n)) && |files| <= MAX_ARCHIVE_FILES && Holds(old(raw), files) ==> s.Go? && raw == old(raw))
    {
      hide Safe;
      s := Next(w);
      if !s.Go? { return; }
      if |files| > MAX_ARCHIVE_FILES || exists f | f in files :: f !in raw || raw[f] != files[f] { return Raised; }
      OneMoreShelf(w, archives, m, files);
      forall was | Safe(w, was, raw, archives) ensures Safe(w, was, raw, archives[m := Verified(files)]) {
        RetainedSafe(w, was, raw, archives, archives[m := Verified(files)]);
      }
      archives := archives[m := Verified(files)];
      s := Next(w);
    }

    // A raw segment is removed only while its content is what its archive holds.
    method RetireRaw(w: World, name: Name, content: Bytes) returns (s: Signal)
      requires PastRaw(w, name) && Saved(w, archives, name, content)
      modifies this`raw, this`n
      ensures forall was :: Safe(w, was, old(raw), archives) ==> Safe(w, was, raw, archives)
      ensures n >= old(n) && (Calm(w, old(n)) ==>
        if name in old(raw) && old(raw)[name] == content then s.Go? && raw == old(raw) - {name} else s.Raised? && raw == old(raw))
    {
      s := Next(w);
      if !s.Go? { return; }
      if name !in raw || raw[name] != content { return Raised; }
      forall was | Safe(w, was, raw, archives) ensures Safe(w, was, raw - {name}, archives) { RetiredSafe(w, was, raw, archives, name); }
      raw := raw - {name};
    }

    method ExpireArchive(w: World, m: Month) returns (s: Signal)
      requires m in archives && m < Floor(w)
      modifies this`raw, this`archives, this`n
      ensures archives == old(archives) || archives == old(archives) - {m}
      ensures s.Go? ==> m !in archives
      ensures forall was :: Safe(w, was, old(raw), old(archives)) ==> Safe(w, was, raw, archives)
      ensures n >= old(n) && (Calm(w, old(n)) ==> s.Go? && raw == old(raw))
    {
      hide Safe;
      s := Next(w);
      if !s.Go? { return; }
      forall was | Safe(w, was, raw, archives) ensures Safe(w, was, raw, archives - {m}) { RetainedSafe(w, was, raw, archives, archives - {m}); }
      archives := archives - {m};
    }

    // One applied maintenance run. Undisturbed, it does all of the plan.
    method Maintain(w: World) returns (s: Signal, ghost seen: Segments, ghost plan: Plan)
      modifies this`raw, this`archives, this`n
      ensures Calm(w, old(n)) && Feasible(w, old(raw), old(archives)) ==>
        && s.Go? && seen == old(raw) && CompletePlan(w, old(raw), old(archives), plan)
        && raw == old(raw) - plan.retire && archives == Carried(old(archives), plan)
      ensures Retained(w, old(archives), archives) && Safe(w, old(raw), raw, archives)
      ensures !s.Dead? && !AllAgree(w, seen, old(archives)) ==> s.Raised? && archives == old(archives) && raw == seen
      ensures forall m | m in archives && m !in old(archives) ::
        Floor(w) <= m < w.month(w.now) && archives[m] == Verified(InMonth(w, seen, m))
    {
      hide Safe, Retained, AllAgree, SoundPlan, CompletePlan, Carried, Calm, InMonth;
      SafeSelf(w, raw, archives);
      CalmOn(w, n);
      plan := Plan(map[], {}, {});
      s := Next(w);
      seen := raw;
      if s.Dead? { return; }
      if !s.Go? || |raw| > MAX_DIRECTORY_ENTRIES { return Raised, seen, plan; }
      var snapshot := raw;
      var planned := MakePlan(w, snapshot, archives);
      if planned.Refused? { return Raised, seen, plan; }
      plan := planned.plan;
      if Feasible(w, snapshot, archives) { PlanIsFeasible(w, snapshot, archives, plan); }
      s := Carry(w, snapshot, planned.plan);
    }

    method Carry(w: World, seen: Segments, p: Plan) returns (s: Signal)
      requires SoundPlan(w, seen, archives, p)
      modifies this`raw, this`archives, this`n
      ensures n >= old(n) && (Calm(w, old(n)) && old(raw) == seen && (forall m | m in p.create :: |p.create[m]| <= MAX_ARCHIVE_FILES) ==>
        s.Go? && raw == old(raw) - p.retire && archives == Carried(old(archives), p))
      ensures Retained(w, old(archives), archives)
      ensures forall was :: Safe(w, was, old(raw), old(archives)) ==> Safe(w, was, raw, archives)
      ensures forall m | m in archives && m !in old(archives) ::
        Floor(w) <= m < w.month(w.now) && archives[m] == Verified(InMonth(w, seen, m))
    {
      hide Safe, Retained, Calm, Carried, SoundPlan, With;
      ghost var shelf := archives;
      CalmOn(w, n);
      SoundParts(w, seen, shelf, p);
      ghost var done;
      s, done := CreateAll(w, seen, p.create);
      WithGrows(w, shelf, p.create, done);
      if !s.Go? { return; }
      ghost var grown := archives;
      s := RetireAll(w, seen, shelf, p);
      if s.Go? { s := ExpireAll(w, shelf, p.expire); }
      if s.Go? { AllCarried(shelf, archives, p); }
    }

    // The new archives, one after the other; the first that fails ends the run.
    method CreateAll(w: World, ghost seen: Segments, create: map<Month, Segments>) returns (s: Signal, ghost done: set<Month>)
      requires forall m | m in create :: m !in archives && Holds(seen, create[m])
      modifies this`raw, this`archives, this`n
      ensures done <= create.Keys && archives == With(old(archives), create, done) && (s.Go? ==> done == create.Keys)
      ensures forall was :: Safe(w, was, old(raw), old(archives)) ==> Safe(w, was, raw, archives)
      ensures n >= old(n) && (Calm(w, old(n)) && old(raw) == seen && (forall m | m in create :: |create[m]| <= MAX_ARCHIVE_FILES) ==>
        s.Go? && raw == seen)
    {
      hide Safe, Calm, Holds, With;
      ghost var small := forall m | m in create :: |create[m]| <= MAX_ARCHIVE_FILES;
      CalmOn(w, n);
      s, done := Go, {};
      WithNone(archives, create);
      var todo := create.Keys;
      while todo != {}
        invariant s.Go? && n >= old(n) && (Calm(w, old(n)) && old(raw) == seen && small ==> raw == seen)
        invariant todo <= create.Keys && done == create.Keys - todo && archives == With(old(archives), create, done)
        invariant forall was :: Safe(w, was, old(raw), old(archives)) ==> Safe(w, was, raw, archives)
        decreases |todo|
      {
        var m :| m in todo;
        WithOneMore(old(archives), create, done, m);
        s := CreateOne(w, seen, create, m);
        if m in archives { done := done + {m}; }
        if !s.Go? { return; }
        todo := todo - {m};
      }
    }

    method CreateOne(w: World, ghost seen: Segments, create: map<Month, Segments>, m: Month) returns (s: Signal)
      requires m in create && m !in archives && Holds(seen, create[m])
      modifies this`raw, this`archives, this`n
      ensures if m in archives then archives == old(archives)[m := Verified(create[m])] else archives == old(archives)
      ensures s.Go? ==> m in archives
      ensures forall was :: Safe(w, was, old(raw), old(archives)) ==> Safe(w, was, raw, archives)
      ensures n >= old(n) && (Calm(w, old(n)) && old(raw) == seen && |create[m]| <= MAX_ARCHIVE_FILES ==> s.Go? && raw == seen)
    {
      hide Safe, Calm, Holds;
      s := CreateArchive(w, m, create[m]);
    }

    method ExpireAll(w: World, ghost shelf: Shelves, expire: set<Month>) returns (s: Signal)
      requires Retained(w, shelf, archives) && forall m | m in expire :: m in archives && m < Floor(w)
      modifies this`raw, this`archives, this`n
      ensures Retained(w, shelf, archives) && forall m | m in archives :: m in old(archives) && archives[m] == old(archives)[m]
      ensures s.Go? ==> archives == old(archives) - expire
      ensures n >= old(n) && (Calm(w, old(n)) ==> s.Go? && raw == old(raw))
      ensures forall was :: Safe(w, was, old(raw), old(archives)) ==> Safe(w, was, raw, archives)
    {
      hide Safe, Retained, Calm;
      CalmOn(w, n);
      s := Go;
      var left := expire;
      NoneLeft(archives, expire);
      while left != {}
        invariant s.Go? && archives == old(archives) - (expire - left) && n >= old(n) && (Calm(w, old(n)) ==> raw == old(raw))
        invariant left <= expire && Retained(w, shelf, archives) && forall m | m in left :: m in archives
        invariant forall m | m in archives :: m in old(archives) && archives[m] == old(archives)[m]
        invariant forall was :: Safe(w, was, old(raw), old(archives)) ==> Safe(w, was, raw, archives)
        decreases |left|
      {
        var m :| m in left;
        OneLessShelf(w, shelf, archives, m);
        OneOff(old(archives), expire, left, m);
        s := ExpireArchive(w, m);
        if !s.Go? { return; }
        left := left - {m};
      }
    }

    method RetireAll(w: World, seen: Segments, ghost shelf: Shelves, p: Plan) returns (s: Signal)
      requires SoundPlan(w, seen, shelf, p) && Retained(w, shelf, archives) && forall m | m in shelf :: m in archives
      requires forall m | m in p.create :: m in archives && archives[m] == Verified(p.create[m])
      modifies this`raw, this`n
      ensures forall was :: Safe(w, was, old(raw), archives) ==> Safe(w, was, raw, archives)
      ensures n >= old(n) && (Calm(w, old(n)) && old(raw) == seen ==> s.Go? && raw == seen - p.retire)
    {
      hide Safe, Calm;
      CalmOn(w, n);
      s := Go;
      var todo := p.retire;
      ghost var calm := Calm(w, n) && raw == seen;
      NoneLeft(seen, p.retire);
      while todo != {}
        invariant s.Go? && n >= old(n) && (calm ==> raw == seen - (p.retire - todo))
        invariant todo <= p.retire
        invariant forall was :: Safe(w, was, old(raw), archives) ==> Safe(w, was, raw, archives)
        decreases |todo|
      {
        var name :| name in todo;
        OneOff(seen, p.retire, todo, name);
        s := RetireRaw(w, name, seen[name]);
        if !s.Go? { return; }
        todo := todo - {name};
      }
    }

    // Any sequence of runs under one calendar and a clock that does not go back.
    method RunAll(ws: seq<World>)
      requires forall i :: 0 <= i < |ws| ==> Calendar(ws[i].month) && ws[i].month == ws[0].month
      requires forall i, j :: 0 <= i < j < |ws| ==> ws[i].now <= ws[j].now
      modifies this`raw, this`archives, this`n
      ensures ws != [] ==> SafeThrough(ws, |ws|, old(raw), raw, archives)
    {
      hide Safe, SafeThrough, Retained, Calendar, AllAgree;
      ghost var was := raw;
      var i := 0;
      while i < |ws|
        invariant i <= |ws| && (if i == 0 then raw == was else SafeThrough(ws, i, was, raw, archives))
      {
        ghost var table, shelf := raw, archives;
        var s;
        ghost var seen;
        ghost var plan;
        s, seen, plan := Maintain(ws[i]);
        if i == 0 { FirstRun(ws, was, raw, archives); } else { NextRun(ws, i, was, table, shelf, raw, archives); }
        i := i + 1;
      }
    }
  }

  lemma CalmOn(w: World, n: nat)
    ensures Calm(w, n) ==> forall k: nat {:trigger Calm(w, k)} :: k >= n ==> Calm(w, k)
  {
  }

  // Everything agrees and nothing is too large.
  predicate Feasible(w: World, raw: Segments, archives: Shelves) {
    && AllAgree(w, raw, archives) && |raw| <= MAX_DIRECTORY_ENTRIES
    && forall m | m in FinishedMonths(w, raw) :: |InMonth(w, raw, m)| <= MAX_ARCHIVE_FILES
  }

  lemma PlanIsFeasible(w: World, raw: Segments, archives: Shelves, p: Plan)
    requires Feasible(w, raw, archives) && CompletePlan(w, raw, archives, p)
    ensures forall m | m in p.create :: |p.create[m]| <= MAX_ARCHIVE_FILES
  {
  }

  lemma OneOff<K, V>(a: map<K, V>, all: set<K>, left: set<K>, k: K)
    requires left <= all && k in left
    ensures (a - (all - left)) - {k} == a - (all - (left - {k}))
    ensures k in a ==> k in a - (all - left) && (a - (all - left))[k] == a[k]
  {
    assert all - (left - {k}) == (all - left) + {k};
  }

  lemma NoneLeft<K, V>(a: map<K, V>, all: set<K>)
    ensures a - (all - {}) == a - all && a - (all - all) == a
  {
    assert all - {} == all && all - all == {};
  }

  // What the steps of a plan need of it.
  lemma SoundParts(w: World, seen: Segments, shelf: Shelves, p: Plan)
    requires SoundPlan(w, seen, shelf, p)
    ensures forall m | m in p.create :: m !in shelf && Floor(w) <= m < w.month(w.now) && p.create[m] == InMonth(w, seen, m) && Holds(seen, p.create[m])
    ensures forall m | m in p.expire :: m in shelf && m < Floor(w)
  {
  }

  lemma WithNone(shelf: Shelves, create: map<Month, Segments>)
    ensures With(shelf, create, {}) == shelf
  {
  }

  lemma WithOneMore(shelf: Shelves, create: map<Month, Segments>, done: set<Month>, m: Month)
    requires m in create && m !in shelf && m !in done
    ensures m !in With(shelf, create, done) && With(shelf, create, done)[m := Verified(create[m])] == With(shelf, create, done + {m})
  {
  }

  lemma WithGrows(w: World, shelf: Shelves, create: map<Month, Segments>, done: set<Month>)
    requires done <= create.Keys && forall m | m in create :: m !in shelf
    ensures var a := With(shelf, create, done);
      && Retained(w, shelf, a) && a.Keys == shelf.Keys + done
      && (forall m | m in shelf :: a[m] == shelf[m]) && (forall m | m in done :: a[m] == Verified(create[m]))
  {
  }

  lemma AllCarried(shelf: Shelves, archives: Shelves, p: Plan)
    requires archives == With(shelf, p.create, p.create.Keys) - p.expire
    ensures archives == Carried(shelf, p)
  {
    assert With(shelf, p.create, p.create.Keys) == shelf + map m | m in p.create :: Verified(p.create[m]);
  }

  // ---------- sequences of runs ----------

  // A segment nobody else changed in any run is still there, or it is older than the latest
  // raw cutoff and in a verified archive or past the latest floor.
  ghost predicate SafeThrough(ws: seq<World>, n: nat, was: Segments, raw: Segments, archives: Shelves)
    requires 0 < n <= |ws|
  {
    forall s {:trigger s in was} :: s in was && (forall i :: 0 <= i < n ==> !Touched(ws[i], s)) ==>
      var w := ws[n - 1];
      (s in raw && raw[s] == was[s]) || (PastRaw(w, s) && (Saved(w, archives, s, was[s]) || MonthOf(w, s) < Floor(w)))
  }

  lemma FirstRun(ws: seq<World>, was: Segments, raw: Segments, archives: Shelves)
    requires ws != [] && Safe(ws[0], was, raw, archives)
    ensures SafeThrough(ws, 1, was, raw, archives)
  {
  }

  lemma NextRun(ws: seq<World>, n: nat, was: Segments, table: Segments, shelf: Shelves, raw: Segments, archives: Shelves)
    requires 0 < n < |ws| && Calendar(ws[n].month) && ws[n].month == ws[n - 1].month && ws[n - 1].now <= ws[n].now
    requires SafeThrough(ws, n, was, table, shelf) && Safe(ws[n], table, raw, archives) && Retained(ws[n], shelf, archives)
    ensures SafeThrough(ws, n + 1, was, raw, archives)
  {
    var v, w := ws[n - 1], ws[n];
    assert w.month(v.now) <= w.month(w.now);
    forall s | s in was && (forall k :: 0 <= k < n + 1 ==> !Touched(ws[k], s))
      ensures (s in raw && raw[s] == was[s]) || (PastRaw(w, s) && (Saved(w, archives, s, was[s]) || MonthOf(w, s) < Floor(w)))
    {
      assert !Touched(w, s);
      assert s in was;
      assert s in table ==> (s in raw && raw[s] == table[s]) || (PastRaw(w, s) && (Saved(w, archives, s, table[s]) || MonthOf(w, s) < Floor(w)));
    }
  }

  lemma SafeSelf(w: World, raw: Segments, archives: Shelves)
    ensures Safe(w, raw, raw, archives) && Retained(w, archives, archives)
  {
  }

  lemma RetainedSelf(w: World, a: Shelves)
    ensures Retained(w, a, a)
  {
  }

  lemma OneMoreShelf(w: World, a: Shelves, m: Month, files: Segments)
    requires m !in a
    ensures Retained(w, a, a[m := Verified(files)])
  {
  }

  lemma GrownRetained(w: World, a: Shelves, b: Shelves)
    requires forall m | m in a :: m in b && b[m] == a[m]
    ensures Retained(w, a, b)
  {
  }

  lemma OneLessShelf(w: World, a: Shelves, b: Shelves, m: Month)
    requires Retained(w, a, b) && m < Floor(w)
    ensures Retained(w, a, b - {m}) && Retained(w, b, b - {m})
  {
  }

  lemma RetiredSafe(w: World, was: Segments, raw: Segments, archives: Shelves, name: Name)
    requires name in raw && PastRaw(w, name) && Saved(w, archives, name, raw[name]) && Safe(w, was, raw, archives)
    ensures Safe(w, was, raw - {name}, archives)
  {
    forall s | s in was && !Touched(w, s)
      ensures (s in raw - {name} && raw[s] == was[s]) || (PastRaw(w, s) && (Saved(w, archives, s, was[s]) || MonthOf(w, s) < Floor(w)))
    {
      assert s in was;
    }
  }
}
