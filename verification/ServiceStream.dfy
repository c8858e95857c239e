// The byte-exact segmenting writer of one service output stream.
module ServiceStream {
  import opened Options
  import opened FilePlans

  // The files of one stream. `linked` is the crash window in which the current file has
  // already been published as the last closed segment but not yet been removed.
  datatype Disk = Disk(closed: seq<Bytes>, current: Option<Bytes>, linked: bool)

  // What the n-th operation meets: the calendar day, the bytes a write accepts, a failure.
  datatype World = World(day: nat -> int, accepts: nat -> nat, fails: nat -> bool)

  function Concat(segments: seq<Bytes>): Bytes {
    if segments == [] then [] else Concat(segments[..|segments| - 1]) + segments[|segments| - 1]
  }

  // Closed segments in closing order, followed by the current one.
  function Recorded(d: Disk): Bytes { Concat(d.closed) + if d.current.Some? && !d.linked then d.current.value else [] }

  predicate Bounded(d: Disk, limit: nat) {
    && (forall i :: 0 <= i < |d.closed| ==> |d.closed[i]| <= limit)
    && (d.current.Some? ==> |d.current.value| <= limit)
  }

  predicate WellLinked(d: Disk) { d.linked ==> d.current.Some? && d.closed != [] && d.closed[|d.closed| - 1] == d.current.value }

  datatype Result = Done | Raised

  // After operation `n` nothing fails and every write accepts something.
  ghost predicate Fair(w: World, n: nat) { forall k: nat :: k > n ==> !w.fails(k) && w.accepts(k) > 0 }

  // The current file, if there is one, becomes the last closed segment.
  function AllClosed(d: Disk): seq<Bytes> { if d.current.Some? && !d.linked then d.closed + [d.current.value] else d.closed }

  // How the stream goes on with some data: in the current segment, or in a new one if that is full
  // or the day is over.
  function Appending(d: Disk, data: Bytes, turned: bool): Disk
    requires d.current.Some? && !d.linked
  {
    if turned then Disk(AllClosed(d), Some(data), false) else Disk(d.closed, Some(d.current.value + data), false)
  }

  // The descriptor of the current file. A rotation that fails leaves it stale: closed, but
  // still in the object, so that every later use raises.
  datatype Descriptor = Open | Stale | Gone

  lemma Published(d: Disk)
    requires d.current.Some? && !d.linked
    ensures var e := Disk(d.closed + [d.current.value], d.current, true);
      Recorded(e) == Recorded(d) && WellLinked(e) && Recorded(Disk(e.closed, None, false)) == Recorded(d)
  {
    assert (d.closed + [d.current.value])[..|d.closed|] == d.closed;
  }

  class Stream {
    var disk: Disk
    var size: nat
    var day: int
    var fd: Descriptor
    const limit: nat
    const w: World
    var n: nat

    ghost predicate Valid()
      reads this
    {
      && limit >= 1 && Bounded(disk, limit) && WellLinked(disk)
      && (fd.Open? ==> disk.current.Some? && !disk.linked && |disk.current.value| == size)
    }

    // Takes over whatever an earlier process left: an interrupted publication is finished,
    // an unfinished segment is closed, and a new current file is started.
    constructor (left: Disk, limit: nat, w: World)
      requires limit >= 1 && Bounded(left, limit) && WellLinked(left)
      ensures Valid() && this.limit == limit && this.w == w && Recorded(disk) == Recorded(left)
      ensures fd.Open? ==> disk == Disk(AllClosed(left), Some([]), false) && size == 0 && day == w.day(n)
      ensures Fair(w, 0) ==> fd.Open?
    {
      this.limit, this.w, this.n := limit, w, 0;
      disk, size, day, fd := left, 0, 0, Gone;
      new;
      var r := Done;
      if disk.current.Some? {
        if disk.linked { disk := Disk(disk.closed, None, false); } else { r := CloseSegment(); }
      }
      if r.Done? { r := OpenCurrent(); }
    }

    method Next() returns (ok: bool)
      modifies this`n
      ensures n == old(n) + 1 && (ok <==> !w.fails(n))
    {
      n := n + 1;
      ok := !w.fails(n);
    }

    // Publish the current file under its stamped name, then remove the current name.
    method CloseSegment() returns (r: Result)
      requires Valid() && disk.current.Some? && !disk.linked && !fd.Open?
      modifies this`disk, this`n
      ensures Valid() && Recorded(disk) == Recorded(old(disk)) && (r.Done? ==> disk == Disk(AllClosed(old(disk)), None, false))
      ensures n >= old(n) && (Fair(w, old(n)) ==> r.Done?)
    {
      var ok := Next();
      if !ok { return Raised; }
      Published(disk);
      disk := Disk(disk.closed + [disk.current.value], disk.current, true);
      ok := Next();
      if !ok { return Raised; }
      disk := Disk(disk.closed, None, false);
      return Done;
    }

    method OpenCurrent() returns (r: Result)
      requires Valid() && disk.current.None? && !fd.Open?
      modifies this`disk, this`n, this`size, this`day, this`fd
      ensures Valid() && Recorded(disk) == Recorded(old(disk))
      ensures if r.Done? then fd.Open? && disk == old(disk).(current := Some([])) && size == 0 && day == w.day(n) else fd == old(fd)
      ensures n >= old(n) && (Fair(w, old(n)) ==> r.Done?)
    {
      var ok := Next();
      if !ok { return Raised; }
      disk := disk.(current := Some([]));
      size, day, fd := 0, w.day(n), Open;
      return Done;
    }

    method Rotate() returns (r: Result)
      requires Valid() && fd.Open?
      modifies this`disk, this`n, this`size, this`day, this`fd
      ensures Valid() && Recorded(disk) == Recorded(old(disk))
      ensures if r.Done? then fd.Open? && disk == Disk(AllClosed(old(disk)), Some([]), false) && size == 0 && day == w.day(n) else !fd.Gone?
      ensures n >= old(n) && (Fair(w, old(n)) ==> r.Done?)
    {
      var ok := Next();
      if !ok { return Raised; }
      fd := Stale;
      r := CloseSegment();
      if r.Done? { r := OpenCurrent(); }
    }

    // The part of the data that fits the current segment, in pieces the system accepts.
    method WritePart(data: Bytes) returns (r: Result, written: nat)
      requires Valid() && fd.Open? && |data| <= limit - size
      modifies this`disk, this`n, this`size
      ensures Valid() && fd.Open? && written <= |data| && Recorded(disk) == Recorded(old(disk)) + data[..written]
      ensures r.Done? ==> written == |data|
      ensures disk == Appending(old(disk), data[..written], false)
      ensures n >= old(n) && (Fair(w, old(n)) ==> r.Done?)
    {
      hide Recorded;
      written, r := 0, Done;
      assert Recorded(disk) + data[..0] == Recorded(disk) && disk.current.value + data[..0] == disk.current.value;
      while written < |data|
        invariant written <= |data| <= limit - size + written && Valid() && fd.Open? && n >= old(n) && r.Done?
        invariant disk == Appending(old(disk), data[..written], false)
        invariant Recorded(disk) == Recorded(old(disk)) + data[..written]
      {
        var ok := Next();
        var count := if w.accepts(n) < |data| - written then w.accepts(n) else |data| - written;
        if !ok || count == 0 { return Raised, written; }
        Appended(disk, data, written, count);
        assert data[..written] + data[written..written + count] == data[..written + count];
        assert (old(disk.current.value) + data[..written]) + data[written..written + count] == old(disk.current.value) + data[..written + count];
        disk := disk.(current := Some(disk.current.value + data[written..written + count]));
        size, written := size + count, written + count;
      }
    }

    // One turn of the writer: a look at the clock, a rotation exactly if the segment is full or its
    // day is over, and then what fits.
    method WriteSome(data: Bytes) returns (r: Result, written: nat)
      requires Valid() && fd.Open? && data != []
      modifies this`disk, this`n, this`size, this`day, this`fd
      ensures Valid() && written <= |data| && Recorded(disk) == Recorded(old(disk)) + data[..written]
      ensures r.Done? ==>
        var turned := old(size) == limit || w.day(old(n) + 1) != old(day);
        var room := if turned then limit else limit - old(size);
        && fd.Open? && written == (if |data| < room then |data| else room) > 0
        && disk == Appending(old(disk), data[..written], turned) && (!turned ==> day == old(day))
        && (turned ==> exists k: nat :: old(n) < k <= n && day == w.day(k))
      ensures n > old(n) && (Fair(w, old(n)) ==> r.Done?)
    {
      hide Recorded;
      r, written := Done, 0;
      var ok := Next();
      assert Recorded(disk) + data[..0] == Recorded(disk);
      if size == limit || w.day(n) != day {
        r := Rotate();
        if r.Raised? { return; }
      }
      var part := if |data| < limit - size then |data| else limit - size;
      ghost var before := disk;
      r, written := WritePart(data[..part]);
      assert data[..part][..written] == data[..written];
      assert before.current.value == [] ==> before.current.value + data[..written] == data[..written];
    }

    // Whatever the data, the pieces the system accepts and the jumps of the clock, every byte
    // is recorded once and in order; a failure leaves a prefix. If nothing fails everything is
    // written; a new day closes the segment of the last one, and within a day only full segments
    // are closed.
    method Write(data: Bytes) returns (r: Result, written: nat)
      requires Valid()
      modifies this`disk, this`n, this`size, this`day, this`fd
      ensures Valid() && written <= |data| && Recorded(disk) == Recorded(old(disk)) + data[..written]
      ensures r.Done? ==> written == |data|
      ensures !old(fd).Open? && data != [] ==> r.Raised? && disk == old(disk)
      ensures Fair(w, old(n)) && old(fd).Open? ==> r.Done?
      ensures r.Done? && data != [] && w.day(old(n) + 1) != old(day) ==> AllClosed(old(disk)) <= disk.closed
      ensures r.Done? && (forall k: nat :: k > old(n) ==> w.day(k) == old(day)) ==> FilledFrom(old(disk), disk, limit)
    {
      hide Recorded, FilledFrom, AllClosed;
      written, r := 0, Done;
      SameFilled(disk, limit);
      if data != [] && !fd.Open? { return Raised, 0; }
      assert Recorded(disk) + data[..0] == Recorded(disk);
      while written < |data|
        invariant written <= |data| && Valid() && (data != [] ==> fd.Open?) && (data == [] ==> disk == old(disk))
        invariant Recorded(disk) == Recorded(old(disk)) + data[..written]
        invariant r.Done? && n >= old(n)
        invariant if written == 0 then disk == old(disk) && n == old(n) && day == old(day)
                  else w.day(old(n) + 1) != old(day) ==> AllClosed(old(disk)) <= disk.closed
        invariant (forall k: nat :: k > old(n) ==> w.day(k) == old(day)) ==> FilledFrom(old(disk), disk, limit) && day == old(day)
      {
        ghost var before, clock, look := disk, day, n;
        var rest := data[written..];
        var count: nat;
        r, count := WriteSome(rest);
        assert data[..written] + rest[..count] == data[..written + count];
        if r.Done? { StillFilled(old(disk), before, rest[..count], limit); }
        written := written + count;
        if r.Raised? { return; }
      }
    }

    method Close() returns (r: Result)
      requires Valid()
      modifies this`disk, this`n, this`fd
      ensures Valid() && Recorded(disk) == Recorded(old(disk))
      ensures r.Done? ==> fd.Gone? && !old(fd).Stale?
      ensures r.Done? && old(fd).Open? ==>
        disk == Disk(if old(size) > 0 then AllClosed(old(disk)) else old(disk).closed, None, false)
      ensures old(fd).Gone? ==> r.Done? && disk == old(disk)
      ensures old(fd).Stale? ==> r.Raised? && disk == old(disk)
      ensures Fair(w, old(n)) && !old(fd).Stale? ==> r.Done?
    {
      if fd.Gone? { return Done; }
      if fd.Stale? { return Raised; }
      var ok := Next();
      if !ok { return Raised; }
      fd := Gone;
      if size > 0 {
        r := CloseSegment();
      } else {
        ok := Next();
        if !ok { return Raised; }
        disk := disk.(current := None);
        r := Done;
      }
    }
  }

  lemma Appended(d: Disk, data: Bytes, from: nat, count: nat)
    requires d.current.Some? && !d.linked && from + count <= |data|
    ensures Recorded(d.(current := Some(d.current.value + data[from..from + count]))) == Recorded(d) + data[from..from + count]
  {
  }

  // The segments closed since `a` are full, and the first of them begins with its current file.
  ghost predicate FilledFrom(a: Disk, b: Disk, limit: nat) {
    && a.closed <= b.closed && (forall i :: |a.closed| <= i < |b.closed| ==> |b.closed[i]| == limit)
    && (a.current.Some? && !a.linked ==> b.current.Some? && !b.linked && a.current.value <= if |b.closed| > |a.closed| then b.closed[|a.closed|] else b.current.value)
  }

  lemma SameFilled(d: Disk, limit: nat)
    ensures FilledFrom(d, d, limit)
  {
  }

  // Going on in the same segment, or after a full one, keeps that.
  lemma StillFilled(a: Disk, d: Disk, data: Bytes, limit: nat)
    requires d.current.Some? && !d.linked
    ensures FilledFrom(a, d, limit) ==> FilledFrom(a, Appending(d, data, false), limit)
    ensures FilledFrom(a, d, limit) && |d.current.value| == limit ==> FilledFrom(a, Appending(d, data, true), limit)
    ensures d.closed <= Appending(d, data, false).closed && AllClosed(d) <= Appending(d, data, true).closed && d.closed <= AllClosed(d)
  {
  }
}
