// The tiling check of an office package: it is accepted only if its ZIP records account for
// every byte (PKWARE APPNOTE.TXT, sections 4.3.7, 4.3.12 and 4.3.16).
module ZipCover {
  import opened Options

  newtype byte = x: int | 0 <= x < 256
  type Data = seq<byte>

  const MAX_ZIP_ENTRIES := 256

  const LOCAL_SIGNATURE: Data := [0x50, 0x4B, 3, 4]
  const CENTRAL_SIGNATURE: Data := [0x50, 0x4B, 1, 2]
  const END_SIGNATURE: Data := [0x50, 0x4B, 5, 6]

  // Flag words with no bit set outside 0x800 and 0x6.
  const ALLOWED_FLAGS: set<nat> := {0, 2, 4, 6, 0x800, 0x802, 0x804, 0x806}

  // What the ZIP library reports about one member.
  datatype Member = Member(offset: nat, flags: nat, packing: nat, crc: nat, compressed: nat, size: nat, name: string, original: string)

  // A record of the package as the half-open range of its bytes.
  type Span = (nat, nat)

  function U16(data: Data, i: nat): nat
    requires i + 2 <= |data|
  {
    data[i] as nat + 256 * data[i + 1] as nat
  }

  function U32(data: Data, i: nat): nat
    requires i + 4 <= |data|
  {
    U16(data, i) + 65536 * U16(data, i + 2)
  }

  predicate At(data: Data, i: nat, signature: Data) { i + |signature| <= |data| && data[i..i + |signature|] == signature }

  // ---------- tiling ----------

  // The spans follow each other from `a` to `b` without gap or overlap.
  predicate Chain(spans: seq<Span>, a: nat, b: nat)
    decreases |spans|
  {
    if spans == [] then a == b
    else spans[|spans| - 1].0 <= spans[|spans| - 1].1 == b && Chain(spans[..|spans| - 1], a, spans[|spans| - 1].0)
  }

  lemma {:induction false} ChainJoin(p: seq<Span>, q: seq<Span>, a: nat, b: nat, c: nat)
    requires Chain(p, a, b) && Chain(q, b, c)
    ensures Chain(p + q, a, c)
    decreases |q|
  {
    if q == [] {
      assert p + q == p;
    } else {
      ChainJoin(p, q[..|q| - 1], a, b, q[|q| - 1].0);
      assert (p + q)[..|p + q| - 1] == p + q[..|q| - 1];
    }
  }

  ghost predicate Within(spans: seq<Span>, i: int, x: int) { 0 <= i < |spans| && spans[i].0 <= x < spans[i].1 }

  lemma {:induction false} ChainBounds(spans: seq<Span>, a: nat, b: nat)
    requires Chain(spans, a, b)
    ensures a <= b && forall i :: 0 <= i < |spans| ==> a <= spans[i].0 <= spans[i].1 <= b
    ensures forall i, j :: 0 <= i < j < |spans| ==> spans[i].1 <= spans[j].0
    decreases |spans|
  {
    if spans != [] { ChainBounds(spans[..|spans| - 1], a, spans[|spans| - 1].0); }
  }

  // Every byte lies in exactly one record.
  lemma {:induction false} TilesExactly(spans: seq<Span>, a: nat, b: nat, x: nat)
    requires Chain(spans, a, b) && a <= x < b
    ensures exists i :: Within(spans, i, x)
    ensures forall i, j :: Within(spans, i, x) && Within(spans, j, x) ==> i == j
    decreases |spans|
  {
    ChainBounds(spans, a, b);
    var init, last := spans[..|spans| - 1], spans[|spans| - 1];
    if last.0 <= x {
      assert Within(spans, |spans| - 1, x);
    } else {
      TilesExactly(init, a, last.0, x);
      var i :| Within(init, i, x);
      assert Within(spans, i, x);
    }
  }

  // ---------- ordering ----------

  predicate ByOffset(ms: seq<Member>) { forall i, j :: 0 <= i < j < |ms| ==> ms[i].offset <= ms[j].offset }

  function Insert(ms: seq<Member>, m: Member): seq<Member> {
    if ms == [] || ms[|ms| - 1].offset <= m.offset then ms + [m]
    else Insert(ms[..|ms| - 1], m) + [ms[|ms| - 1]]
  }

  lemma {:induction false} InsertPermutes(ms: seq<Member>, m: Member)
    ensures multiset(Insert(ms, m)) == multiset(ms) + multiset{m} && |Insert(ms, m)| == |ms| + 1
  {
    if ms != [] && ms[|ms| - 1].offset > m.offset {
      assert ms == ms[..|ms| - 1] + [ms[|ms| - 1]];
      InsertPermutes(ms[..|ms| - 1], m);
    }
  }

  lemma {:induction false} InsertOrders(ms: seq<Member>, m: Member, bound: nat)
    requires ByOffset(ms)
    ensures ByOffset(Insert(ms, m))
    ensures m.offset <= bound && (forall i :: 0 <= i < |ms| ==> ms[i].offset <= bound) ==>
      forall i :: 0 <= i < |Insert(ms, m)| ==> Insert(ms, m)[i].offset <= bound
  {
    if ms != [] && ms[|ms| - 1].offset > m.offset {
      InsertOrders(ms[..|ms| - 1], m, ms[|ms| - 1].offset);
      InsertOrders(ms[..|ms| - 1], m, bound);
    }
  }

  // `sorted(members, key=header_offset)`
  function Sorted(ms: seq<Member>): (r: seq<Member>)
    ensures ByOffset(r) && multiset(r) == multiset(ms) && |r| == |ms|
  {
    if ms == [] then []
    else
      assert ms == ms[..|ms| - 1] + [ms[|ms| - 1]];
      InsertPermutes(Sorted(ms[..|ms| - 1]), ms[|ms| - 1]);
      InsertOrders(Sorted(ms[..|ms| - 1]), ms[|ms| - 1], 0);
      Insert(Sorted(ms[..|ms| - 1]), ms[|ms| - 1])
  }

  // ---------- the check ----------

  // One accepted local record: its header with the name, and its payload.
  datatype Local = Local(offset: nat, start: nat, stop: nat)

  function HeaderSpan(l: Local): Span { (l.offset, l.start) }

  function PayloadSpan(l: Local): Span { (l.start, l.stop) }

  function LocalSpans(ls: seq<Local>): (spans: seq<Span>)
    ensures |spans| == 2 * |ls|
  {
    if ls == [] then [] else LocalSpans(ls[..|ls| - 1]) + [HeaderSpan(ls[|ls| - 1]), PayloadSpan(ls[|ls| - 1])]
  }

  datatype Verdict = Blocked | Covered(locals: seq<Local>, entries: seq<Span>, ranges: map<string, Span>)

  // The central entry at `c` belongs to member `m`.
  predicate EntryOf(data: Data, c: Span, m: Member) {
    && c.0 + 46 <= c.1 <= |data| && At(data, c.0, CENTRAL_SIGNATURE)
    && c.1 == c.0 + 46 + U16(data, c.0 + 28) + U16(data, c.0 + 30) + U16(data, c.0 + 32)
    && U16(data, c.0 + 30) == 0 && U16(data, c.0 + 34) == 0 && U32(data, c.0 + 42) == m.offset
  }

  // The local record at `l` is that of member `m`, in every field both headers carry.
  predicate LocalOf(data: Data, l: Local, m: Member, decode: (Data, bool) -> Option<string>) {
    && l.offset == m.offset && l.offset + 30 <= l.start <= l.stop <= |data| && At(data, l.offset, LOCAL_SIGNATURE)
    && U16(data, l.offset + 6) == m.flags && m.flags in ALLOWED_FLAGS && U16(data, l.offset + 8) == m.packing
    && U32(data, l.offset + 14) == m.crc && U32(data, l.offset + 18) == m.compressed && U32(data, l.offset + 22) == m.size
    && U16(data, l.offset + 28) == 0 && l.start == l.offset + 30 + U16(data, l.offset + 26) && l.stop == l.start + m.compressed
    && decode(data[l.offset + 30..l.start], m.flags >= 0x800) == Some(m.original)
  }

  // The directory from `from` to `end` has exactly one entry for each member, in their order.
  ghost predicate IsDirectory(data: Data, members: seq<Member>, from: nat, end: nat, entries: seq<Span>) {
    |entries| == |members| && Chain(entries, from, end) && forall i :: 0 <= i < |members| ==> EntryOf(data, entries[i], members[i])
  }

  // The file up to the directory holds exactly one local record for each member, in their order.
  ghost predicate IsContents(data: Data, members: seq<Member>, central: nat, decode: (Data, bool) -> Option<string>, locals: seq<Local>) {
    && |locals| == |members| && Chain(LocalSpans(locals), 0, central)
    && forall i :: 0 <= i < |members| ==> LocalOf(data, locals[i], members[i], decode)
  }

  // The last end-of-directory signature starts a record for these members that ends the file.
  ghost predicate IsEnd(data: Data, members: seq<Member>, start: nat, end: nat) {
    && At(data, end, END_SIGNATURE) && (forall i :: i > end ==> !At(data, i, END_SIGNATURE))
    && end + 22 <= |data| && end + 22 + U16(data, end + 20) == |data|
    && U16(data, end + 4) == 0 && U16(data, end + 6) == 0
    && U16(data, end + 8) == U16(data, end + 10) == |members| && 1 <= |members| <= MAX_ZIP_ENTRIES
    && U32(data, end + 16) == start && start + U32(data, end + 12) == end
  }

  ghost predicate HasDirectory(data: Data, members: seq<Member>, from: nat, end: nat) { exists es :: IsDirectory(data, members, from, end, es) }

  ghost predicate HasContents(data: Data, members: seq<Member>, central: nat, decode: (Data, bool) -> Option<string>) {
    exists ls :: IsContents(data, members, central, decode, ls)
  }

  // What the check is to accept.
  ghost predicate IsPackage(data: Data, members: seq<Member>, start: nat, decode: (Data, bool) -> Option<string>) {
    exists end :: IsEnd(data, members, start, end) && HasDirectory(data, members, start, end) && HasContents(data, Sorted(members), start, decode)
  }

  lemma {:induction false} ChainLinks(spans: seq<Span>, a: nat, b: nat, k: nat)
    requires Chain(spans, a, b) && k <= |spans|
    ensures (if k == 0 then a else spans[k - 1].1) == if k == |spans| then b else spans[k].0
    decreases |spans|
  {
    if spans != [] {
      var init, last := spans[..|spans| - 1], spans[|spans| - 1];
      if k < |spans| { ChainLinks(init, a, last.0, k); }
    }
  }

  lemma LocalLinks(ls: seq<Local>, central: nat, k: nat)
    requires Chain(LocalSpans(ls), 0, central) && k <= |ls|
    ensures (if k == 0 then 0 else ls[k - 1].stop) == if k == |ls| then central else ls[k].offset
    ensures k < |ls| ==> ls[k].stop <= central
  {
    var spans := LocalSpans(ls);
    ChainLinks(spans, 0, central, 2 * k);
    ChainBounds(spans, 0, central);
    if k < |ls| { SpanPlaces(ls, k); }
    if k > 0 { SpanPlaces(ls, k - 1); }
  }

  // One central entry, which must start at the cursor and end before the end record.
  method ReadEntry(data: Data, m: Member, cursor: nat, end: nat) returns (c: Option<Span>)
    requires cursor <= end <= |data|
    ensures c.Some? ==> EntryOf(data, c.value, m) && c.value.0 == cursor <= c.value.1 <= end
    ensures forall stop: nat :: stop <= end && EntryOf(data, (cursor, stop), m) ==> c == Some((cursor, stop))
  {
    if cursor + 46 > end || data[cursor..cursor + 4] != CENTRAL_SIGNATURE { return None; }
    var name, extra, comment := U16(data, cursor + 28), U16(data, cursor + 30), U16(data, cursor + 32);
    if U16(data, cursor + 34) != 0 || extra != 0 || U32(data, cursor + 42) != m.offset { return None; }
    var next := cursor + 46 + name + extra + comment;
    if next > end { return None; }
    return Some((cursor, next));
  }

  // The first loop: central entries, in directory order.
  method CoverCentral(data: Data, members: seq<Member>, from: nat, end: nat) returns (ok: bool, entries: seq<Span>)
    requires from <= end <= |data|
    ensures ok <==> HasDirectory(data, members, from, end)
    ensures ok ==> IsDirectory(data, members, from, end, entries)
  {
    hide EntryOf, IsDirectory;
    var cursor := from;
    entries := [];
    for k := 0 to |members|
      invariant from <= cursor <= end && |entries| == k && Chain(entries, from, cursor)
      invariant forall i :: 0 <= i < k ==> EntryOf(data, entries[i], members[i])
      invariant forall es :: IsDirectory(data, members, from, end, es) ==> k <= |es| && es[..k] == entries
    {
      var c := ReadEntry(data, members[k], cursor, end);
      forall es | IsDirectory(data, members, from, end, es) ensures c.Some? && k < |es| && es[..k + 1] == entries + [c.value] {
        EntryIsRead(data, members, from, end, es, entries, k, cursor);
      }
      if c.None? { return false, []; }
      assert (entries + [c.value])[..k] == entries;
      entries, cursor := entries + [c.value], c.value.1;
    }
    ok := cursor == end;
    forall es | IsDirectory(data, members, from, end, es) ensures ok { WholeDirectory(data, members, from, end, es, entries, cursor); }
    if ok { DirectoryIs(data, members, from, end, entries); }
  }

  lemma DirectoryIs(data: Data, members: seq<Member>, from: nat, end: nat, entries: seq<Span>)
    requires |entries| == |members| && Chain(entries, from, end) && forall i :: 0 <= i < |members| ==> EntryOf(data, entries[i], members[i])
    ensures IsDirectory(data, members, from, end, entries)
  {
  }

  // The next entry of a directory that begins with the entries read is the one at the cursor.
  lemma EntryIsRead(data: Data, members: seq<Member>, from: nat, end: nat, es: seq<Span>, entries: seq<Span>, k: nat, cursor: nat)
    requires IsDirectory(data, members, from, end, es) && k < |members| && k <= |es| && es[..k] == entries && Chain(entries, from, cursor)
    ensures k < |es| && es[k].0 == cursor && es[k].1 <= end && EntryOf(data, (cursor, es[k].1), members[k]) && es[..k + 1] == entries + [(cursor, es[k].1)]
  {
    ChainLinks(es, from, end, k);
    ChainBounds(es, from, end);
    ChainLinks(entries, from, cursor, k);
    if k > 0 { assert es[k - 1] == entries[k - 1]; }
    assert es[k] == (cursor, es[k].1);
    hide EntryOf;
  }

  lemma WholeDirectory(data: Data, members: seq<Member>, from: nat, end: nat, es: seq<Span>, entries: seq<Span>, cursor: nat)
    requires IsDirectory(data, members, from, end, es) && |members| <= |es| && es[..|members|] == entries && Chain(entries, from, cursor)
    ensures cursor == end
  {
    assert es == entries;
    ChainLinks(es, from, end, |es|);
    ChainLinks(es, from, cursor, |es|);
  }

  // One local record, which must start at the cursor and end before the directory.
  method ReadLocal(data: Data, m: Member, cursor: nat, central: nat, decode: (Data, bool) -> Option<string>) returns (l: Option<Local>)
    requires central <= |data|
    ensures l.Some? ==> LocalOf(data, l.value, m, decode) && l.value.offset == cursor && l.value.stop <= central
    ensures forall x: Local :: x.offset == cursor && x.stop <= central && LocalOf(data, x, m, decode) ==> l == Some(x)
  {
    var offset := m.offset;
    if offset != cursor || offset + 30 > central || data[offset..offset + 4] != LOCAL_SIGNATURE { return None; }
    var flags, packing := U16(data, offset + 6), U16(data, offset + 8);
    var crc, compressed, size := U32(data, offset + 14), U32(data, offset + 18), U32(data, offset + 22);
    var nameLength, extra := U16(data, offset + 26), U16(data, offset + 28);
    if flags !in ALLOWED_FLAGS || flags != m.flags || packing != m.packing || extra != 0
       || compressed != m.compressed || size != m.size || crc != m.crc { return None; }
    var start := offset + 30 + nameLength;
    var stop := start + compressed;
    if stop > central { return None; }
    if decode(data[offset + 30..start], flags >= 0x800) != Some(m.original) { return None; }
    return Some(Local(offset, start, stop));
  }

  // The second loop: local records, in the order of their offsets.
  method CoverLocals(data: Data, sorted: seq<Member>, central: nat, decode: (Data, bool) -> Option<string>)
    returns (ok: bool, locals: seq<Local>, ranges: map<string, Span>)
    requires central <= |data|
    ensures ok <==> HasContents(data, sorted, central, decode)
    ensures ok ==>
      && IsContents(data, sorted, central, decode, locals)
      && (forall i :: 0 <= i < |sorted| ==> sorted[i].name in ranges)
      && (forall q | q in ranges :: exists i :: 0 <= i < |sorted| && sorted[i].name == q && ranges[q] == PayloadSpan(locals[i]))
  {
    hide LocalOf, LocalSpans, Chain, IsContents;
    var cursor: nat := 0;
    locals, ranges := [], map[];
    NoSpans();
    for k := 0 to |sorted|
      invariant cursor <= central && |locals| == k && Chain(LocalSpans(locals), 0, cursor)
      invariant forall i :: 0 <= i < k ==> LocalOf(data, locals[i], sorted[i], decode)
      invariant forall ls :: IsContents(data, sorted, central, decode, ls) ==> k <= |ls| && ls[..k] == locals
      invariant forall i :: 0 <= i < k ==> sorted[i].name in ranges
      invariant forall q | q in ranges :: exists i :: 0 <= i < k && sorted[i].name == q && ranges[q] == PayloadSpan(locals[i])
    {
      var l := ReadLocal(data, sorted[k], cursor, central, decode);
      forall ls | IsContents(data, sorted, central, decode, ls) ensures l.Some? && k < |ls| && ls[..k + 1] == locals + [l.value] {
        LocalIsRead(data, sorted, central, decode, ls, locals, k, cursor);
      }
      if l.None? { return false, [], map[]; }
      LocalIsOrdered(data, l.value, sorted[k], decode);
      ChainLocal(locals, l.value, cursor);
      ghost var before, held := locals, ranges;
      locals, ranges := locals + [l.value], ranges[sorted[k].name := PayloadSpan(l.value)];
      forall q | q in ranges ensures exists i :: 0 <= i < k + 1 && sorted[i].name == q && ranges[q] == PayloadSpan(locals[i]) {
        if q == sorted[k].name {
          assert sorted[k].name == q && ranges[q] == PayloadSpan(locals[k]);
        } else {
          var i :| 0 <= i < k && sorted[i].name == q && held[q] == PayloadSpan(before[i]);
          assert locals[i] == before[i];
        }
      }
      cursor := l.value.stop;
    }
    ok := cursor == central;
    forall ls | IsContents(data, sorted, central, decode, ls) ensures ok { WholeContents(data, sorted, central, decode, ls, locals, cursor); }
    if ok { ContentsAre(data, sorted, central, decode, locals); }
  }

  lemma ContentsAre(data: Data, members: seq<Member>, central: nat, decode: (Data, bool) -> Option<string>, locals: seq<Local>)
    requires |locals| == |members| && Chain(LocalSpans(locals), 0, central)
    requires forall i :: 0 <= i < |members| ==> LocalOf(data, locals[i], members[i], decode)
    ensures IsContents(data, members, central, decode, locals)
  {
  }

  // The next record of a file that begins with the records read is the one at the cursor.
  lemma LocalIsRead(data: Data, members: seq<Member>, central: nat, decode: (Data, bool) -> Option<string>, ls: seq<Local>, locals: seq<Local>,
                    k: nat, cursor: nat)
    requires IsContents(data, members, central, decode, ls) && k < |members| && k <= |ls| && ls[..k] == locals && Chain(LocalSpans(locals), 0, cursor)
    ensures k < |ls| && ls[k].offset == cursor && ls[k].stop <= central && LocalOf(data, ls[k], members[k], decode) && ls[..k + 1] == locals + [ls[k]]
  {
    hide LocalOf, LocalSpans, Chain;
    LocalLinks(ls, central, k);
    LocalLinks(locals, cursor, k);
    if k > 0 { assert ls[k - 1] == locals[k - 1]; }
  }

  lemma WholeContents(data: Data, members: seq<Member>, central: nat, decode: (Data, bool) -> Option<string>, ls: seq<Local>, locals: seq<Local>, cursor: nat)
    requires IsContents(data, members, central, decode, ls) && |members| <= |ls| && ls[..|members|] == locals && Chain(LocalSpans(locals), 0, cursor)
    ensures cursor == central
  {
    hide LocalOf, LocalSpans, Chain;
    assert ls == locals;
    LocalLinks(ls, central, |ls|);
    LocalLinks(ls, cursor, |ls|);
  }

  lemma NoSpans()
    ensures Chain(LocalSpans([]), 0, 0)
  {
  }

  lemma LocalIsOrdered(data: Data, l: Local, m: Member, decode: (Data, bool) -> Option<string>)
    requires LocalOf(data, l, m, decode)
    ensures l.offset <= l.start <= l.stop
  {
  }

  lemma ChainLocal(ls: seq<Local>, l: Local, cursor: nat)
    requires Chain(LocalSpans(ls), 0, cursor) && l.offset == cursor && l.offset <= l.start <= l.stop
    ensures Chain(LocalSpans(ls + [l]), 0, l.stop)
  {
    assert (ls + [l])[..|ls|] == ls;
    var a, b := LocalSpans(ls), LocalSpans(ls + [l]);
    assert b == a + [HeaderSpan(l), PayloadSpan(l)];
    assert b[..|b| - 1] == a + [HeaderSpan(l)];
    assert (a + [HeaderSpan(l)])[..|a|] == a;
  }

  // The last end-of-directory signature.
  method FindEnd(data: Data) returns (end: Option<nat>)
    ensures end.None? ==> forall i :: 0 <= i ==> !At(data, i, END_SIGNATURE)
    ensures end.Some? ==> At(data, end.value, END_SIGNATURE) && forall i :: i > end.value ==> !At(data, i, END_SIGNATURE)
  {
    var i := |data|;
    while i > 0
      invariant i <= |data| && forall k :: i <= k ==> !At(data, k, END_SIGNATURE)
    {
      i := i - 1;
      if At(data, i, END_SIGNATURE) { return Some(i); }
    }
    return None;
  }

  // The spans of a whole package: local headers and payloads, central entries, end record.
  function AllSpans(v: Verdict, end: nat, length: nat): seq<Span>
    requires v.Covered?
  {
    LocalSpans(v.locals) + v.entries + [(end, length)]
  }

  // `members` and `start` (of the directory) are what the ZIP library found in `data`.
  method CheckPackage(data: Data, members: seq<Member>, start: nat, decode: (Data, bool) -> Option<string>) returns (v: Verdict, end: nat)
    ensures v.Covered? <==> IsPackage(data, members, start, decode)
    ensures v.Covered? ==>
      && 1 <= |members| <= MAX_ZIP_ENTRIES && |v.locals| == |v.entries| == |members|
      && end < |data| && At(data, end, END_SIGNATURE) && (forall i :: i > end ==> !At(data, i, END_SIGNATURE))
      && Chain(AllSpans(v, end, |data|), 0, |data|)
      && (forall i :: 0 <= i < |members| ==> EntryOf(data, v.entries[i], members[i]))
      && (forall i :: 0 <= i < |members| ==> LocalOf(data, v.locals[i], Sorted(members)[i], decode))
      && (forall i :: 0 <= i < |members| ==> Sorted(members)[i].name in v.ranges)
      && (forall q | q in v.ranges ::
            exists i :: 0 <= i < |members| && Sorted(members)[i].name == q && v.ranges[q] == PayloadSpan(v.locals[i]))
  {
    hide EntryOf, LocalOf, Chain, AllSpans, LocalSpans, Sorted, IsDirectory, IsContents, HasDirectory, HasContents, IsPackage;
    end := 0;
    if IsPackage(data, members, start, decode) { PackageStartsSo(data, members, start, decode); }
    if !At(data, 0, LOCAL_SIGNATURE) { return Blocked, 0; }
    var found := FindEnd(data);
    if found.Some? { EndIsLast(data, members, start, decode, found.value); } else { NoEnd(data, members, start, decode); }
    if found.None? || found.value + 22 > |data| { return Blocked, 0; }
    end := found.value;
    var disk, centralDisk, diskEntries, entries := U16(data, end + 4), U16(data, end + 6), U16(data, end + 8), U16(data, end + 10);
    var size, offset, comment := U32(data, end + 12), U32(data, end + 16), U16(data, end + 20);
    if disk != 0 || centralDisk != 0 || diskEntries != entries || end + 22 + comment != |data| { return Blocked, end; }
    if entries != |members| || !(1 <= entries <= MAX_ZIP_ENTRIES) { return Blocked, end; }
    if offset + size != end || start != offset { return Blocked, end; }
    var ok, central := CoverCentral(data, members, offset, end);
    if !ok { return Blocked, end; }
    var locals, ranges;
    ok, locals, ranges := CoverLocals(data, Sorted(members), offset, decode);
    if !ok { return Blocked, end; }
    v := Covered(locals, central, ranges);
    DirectoryShows(data, members, offset, end, central);
    ContentsShow(data, Sorted(members), offset, decode, locals);
    JoinSpans(v, offset, end, |data|);
  }

  lemma PackageStartsSo(data: Data, members: seq<Member>, start: nat, decode: (Data, bool) -> Option<string>)
    requires IsPackage(data, members, start, decode)
    ensures At(data, 0, LOCAL_SIGNATURE)
  {
    hide Sorted, Chain, LocalSpans, HasDirectory;
    var ls :| IsContents(data, Sorted(members), start, decode, ls);
    LocalLinks(ls, start, 0);
    assert LocalOf(data, ls[0], Sorted(members)[0], decode);
  }

  lemma EndIsLast(data: Data, members: seq<Member>, start: nat, decode: (Data, bool) -> Option<string>, end: nat)
    requires At(data, end, END_SIGNATURE) && forall i :: i > end ==> !At(data, i, END_SIGNATURE)
    ensures IsPackage(data, members, start, decode) <==>
      IsEnd(data, members, start, end) && HasDirectory(data, members, start, end) && HasContents(data, Sorted(members), start, decode)
  {
    hide Sorted, HasDirectory, HasContents;
  }

  lemma NoEnd(data: Data, members: seq<Member>, start: nat, decode: (Data, bool) -> Option<string>)
    requires forall i :: 0 <= i ==> !At(data, i, END_SIGNATURE)
    ensures !IsPackage(data, members, start, decode)
  {
    hide Sorted, HasDirectory, HasContents;
  }

  lemma DirectoryShows(data: Data, members: seq<Member>, from: nat, end: nat, entries: seq<Span>)
    requires IsDirectory(data, members, from, end, entries)
    ensures |entries| == |members| && Chain(entries, from, end) && forall i :: 0 <= i < |members| ==> EntryOf(data, entries[i], members[i])
  {
  }

  lemma ContentsShow(data: Data, members: seq<Member>, central: nat, decode: (Data, bool) -> Option<string>, locals: seq<Local>)
    requires IsContents(data, members, central, decode, locals)
    ensures |locals| == |members| && Chain(LocalSpans(locals), 0, central)
    ensures forall i :: 0 <= i < |members| ==> LocalOf(data, locals[i], members[i], decode)
  {
  }

  lemma JoinSpans(v: Verdict, central: nat, end: nat, length: nat)
    requires v.Covered? && Chain(LocalSpans(v.locals), 0, central) && Chain(v.entries, central, end) && end <= length
    ensures Chain(AllSpans(v, end, length), 0, length)
  {
    ChainJoin(LocalSpans(v.locals), v.entries, 0, central, end);
    assert Chain([(end, length)], end, length);
    ChainJoin(LocalSpans(v.locals) + v.entries, [(end, length)], 0, end, length);
  }

  lemma {:induction false} SpanPlaces(ls: seq<Local>, i: nat)
    requires i < |ls|
    ensures LocalSpans(ls)[2 * i] == HeaderSpan(ls[i]) && LocalSpans(ls)[2 * i + 1] == PayloadSpan(ls[i])
  {
    if i < |ls| - 1 { SpanPlaces(ls[..|ls| - 1], i); }
  }

  // In an accepted package every byte belongs to exactly one record, and the payloads of
  // different members do not overlap.
  lemma PackageIsTiled(v: Verdict, end: nat, length: nat, x: nat, i: nat, j: nat)
    requires v.Covered? && Chain(AllSpans(v, end, length), 0, length) && x < length && i < j < |v.locals|
    ensures exists k :: Within(AllSpans(v, end, length), k, x)
    ensures forall k, n :: Within(AllSpans(v, end, length), k, x) && Within(AllSpans(v, end, length), n, x) ==> k == n
    ensures v.locals[i].stop <= v.locals[j].offset <= v.locals[j].start <= v.locals[j].stop <= length
  {
    var spans := AllSpans(v, end, length);
    TilesExactly(spans, 0, length, x);
    ChainBounds(spans, 0, length);
    SpanPlaces(v.locals, i);
    SpanPlaces(v.locals, j);
    assert spans[2 * i + 1] == PayloadSpan(v.locals[i]) && spans[2 * j] == HeaderSpan(v.locals[j]) && spans[2 * j + 1] == PayloadSpan(v.locals[j]);
  }

  // The central entry `c` gives the offset of the local record `l`.
  predicate Points(data: Data, c: Span, l: Local) { c.0 + 46 <= |data| && U32(data, c.0 + 42) == l.offset }

  // Every central entry points at a local record and every local record is pointed at.
  lemma DirectoryIsComplete(data: Data, members: seq<Member>, v: Verdict, decode: (Data, bool) -> Option<string>, k: nat)
    requires v.Covered? && |v.locals| == |v.entries| == |members| && k < |members|
    requires forall i :: 0 <= i < |members| ==> EntryOf(data, v.entries[i], members[i])
    requires forall i :: 0 <= i < |members| ==> LocalOf(data, v.locals[i], Sorted(members)[i], decode)
    ensures exists i :: 0 <= i < |v.locals| && Points(data, v.entries[k], v.locals[i])
    ensures exists j :: 0 <= j < |v.entries| && Points(data, v.entries[j], v.locals[k])
  {
    hide Sorted;
    var sorted := Sorted(members);
    assert members[k] in multiset(members) && members[k] in multiset(sorted);
    var i :| 0 <= i < |sorted| && sorted[i] == members[k];
    assert LocalOf(data, v.locals[i], sorted[i], decode) && EntryOf(data, v.entries[k], members[k]);
    assert Points(data, v.entries[k], v.locals[i]);
    assert sorted[k] in multiset(sorted) && sorted[k] in multiset(members);
    var j :| 0 <= j < |members| && members[j] == sorted[k];
    assert LocalOf(data, v.locals[k], sorted[k], decode) && EntryOf(data, v.entries[j], members[j]);
    assert Points(data, v.entries[j], v.locals[k]);
  }
}
