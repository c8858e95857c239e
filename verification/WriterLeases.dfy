// Writer leases with fencing tokens.
module WriterLeases {
  import opened Options

  type Resource = nat
  type Owner = nat

  const MIN_TTL := 10
  const EPOCH := 0

  datatype Lease = Lease(owner: Owner, token: nat, acquired: int, expires: int)

  type Leases = map<Resource, Lease>

  // The pair that a renewal or release must name.
  predicate Current(ls: Leases, r: Resource, owner: Owner, token: nat) { r in ls && ls[r].owner == owner && ls[r].token == token }

  function Until(now: int, ttl: int): int { now + if ttl > MIN_TTL then ttl else MIN_TTL }

  // Another owner's lease keeps `owner` out at time `now`.
  predicate KeptOut(ls: Leases, r: Resource, owner: Owner, now: int) { r in ls && ls[r].owner != owner && now < ls[r].expires }

  // From `now` the row keeps exactly the others out, for the time asked for but at least ten seconds.
  ghost predicate HeldFor(ls: Leases, r: Resource, owner: Owner, now: int, ttl: int) {
    forall other: Owner, t {:trigger KeptOut(ls, r, other, t)} ::
      KeptOut(ls, r, other, t) <==> other != owner && t < now + (if ttl < 10 then 10 else ttl)
  }

  // Tokens never go back, and one token has one owner.
  ghost predicate Grows(a: Leases, b: Leases) {
    forall r {:trigger r in a} :: r in a ==> r in b && a[r].token <= b[r].token && (a[r].token == b[r].token ==> a[r].owner == b[r].owner)
  }

  class LeaseTable {
    var rows: Leases
    // The owners of each resource's successful acquisitions, in order.
    ghost var holders: map<Resource, seq<Owner>>

    // Token k was given to the k-th successful acquirer, and the row shows the last one.
    ghost predicate Valid()
      reads this
    {
      && rows.Keys == holders.Keys
      && forall r | r in rows :: 1 <= rows[r].token == |holders[r]| && rows[r].owner == holders[r][rows[r].token - 1]
    }

    constructor ()
      ensures Valid() && rows == map[]
    {
      rows, holders := map[], map[];
    }

    // The next token of the resource, unless another owner's lease is still running.
    method Acquire(r: Resource, owner: Owner, ttl: int, now: int) returns (token: Option<nat>)
      requires Valid()
      modifies this
      ensures Valid() && Grows(old(rows), rows)
      ensures token.None? <==> KeptOut(old(rows), r, owner, now)
      ensures token.None? ==> rows == old(rows) && holders == old(holders)
      ensures token.Some? ==>
        && token.value == (if r in old(holders) then |old(holders)[r]| else 0) + 1
        && holders == old(holders)[r := (if r in old(holders) then old(holders)[r] else []) + [owner]]
        && Current(rows, r, owner, token.value) && HeldFor(rows, r, owner, now, ttl)
        && rows[r].acquired == (if r in old(rows) && old(rows)[r].owner == owner then old(rows)[r].acquired else now)
        && (forall k | k != r :: (k in rows <==> k in old(rows)) && (k in rows ==> rows[k] == old(rows)[k]))
    {
      if r in rows && rows[r].owner != owner && rows[r].expires > now { return None; }
      var fence := if r in rows then rows[r].token + 1 else 1;
      var acquired := if r in rows && rows[r].owner == owner then rows[r].acquired else now;
      holders := holders[r := (if r in holders then holders[r] else []) + [owner]];
      rows := rows[r := Lease(owner, fence, acquired, Until(now, ttl))];
      return Some(fence);
    }

    method Renew(r: Resource, owner: Owner, token: nat, ttl: int, now: int) returns (kept: bool)
      requires Valid()
      modifies this`rows
      ensures Valid() && Grows(old(rows), rows)
      ensures kept <==> Current(old(rows), r, owner, token) && old(rows)[r].expires > now
      ensures if kept then r in rows && rows == old(rows)[r := old(rows)[r].(expires := rows[r].expires)] else rows == old(rows)
      ensures kept ==> HeldFor(rows, r, owner, now, ttl)
    {
      kept := Current(rows, r, owner, token) && rows[r].expires > now;
      if kept { rows := rows[r := rows[r].(expires := Until(now, ttl))]; }
    }

    method Release(r: Resource, owner: Owner, token: nat) returns (released: bool)
      requires Valid()
      modifies this`rows
      ensures Valid() && Grows(old(rows), rows)
      ensures released <==> Current(old(rows), r, owner, token)
      ensures if released then r in rows && rows == old(rows)[r := old(rows)[r].(expires := rows[r].expires)] else rows == old(rows)
      // Since the epoch nobody is kept out any more.
      ensures released ==> forall other: Owner, t {:trigger KeptOut(rows, r, other, t)} :: t >= 0 ==> !KeptOut(rows, r, other, t)
    {
      released := Current(rows, r, owner, token);
      if released { rows := rows[r := rows[r].(expires := EPOCH)]; }
    }
  }

  // ---------- any mixture of calls, with any clock readings ----------

  datatype Call =
    | AcquireCall(r: Resource, owner: Owner, ttl: int, now: int)
    | RenewCall(r: Resource, owner: Owner, token: nat, ttl: int, now: int)
    | ReleaseCall(r: Resource, owner: Owner, token: nat)

  function TokenOf(ls: Leases, r: Resource): nat { if r in ls then ls[r].token else 0 }

  // One call; `token` is what a successful acquisition of `r` returned.
  method Perform(table: LeaseTable, call: Call, r: Resource) returns (token: Option<nat>)
    requires table.Valid()
    modifies table
    ensures table.Valid() && Grows(old(table.rows), table.rows)
    ensures token.Some? ==> token.value == TokenOf(old(table.rows), r) + 1 == TokenOf(table.rows, r)
    ensures token.None? ==> TokenOf(table.rows, r) == TokenOf(old(table.rows), r)
  {
    token := None;
    match call {
      case AcquireCall(k, owner, ttl, now) =>
        var given := table.Acquire(k, owner, ttl, now);
        if k == r { token := given; }
      case RenewCall(k, owner, fence, ttl, now) => var kept := table.Renew(k, owner, fence, ttl, now);
      case ReleaseCall(k, owner, fence) => var released := table.Release(k, owner, fence);
    }
  }

  // The tokens that the calls' successful acquisitions of `r` returned are consecutive: from
  // an empty table they are 1, 2, 3, ... A pair that is current before the calls is still
  // current after them exactly if none of them acquired the resource, and a pair that was
  // superseded before them stays so: no later call accepts it.
  method PerformAll(table: LeaseTable, calls: seq<Call>, r: Resource) returns (tokens: seq<nat>)
    requires table.Valid()
    modifies table
    ensures table.Valid() && Grows(old(table.rows), table.rows)
    ensures forall i :: 0 <= i < |tokens| ==> tokens[i] == TokenOf(old(table.rows), r) + 1 + i
    ensures TokenOf(table.rows, r) == TokenOf(old(table.rows), r) + |tokens|
    ensures forall owner, token: nat | Current(old(table.rows), r, owner, token) :: Current(table.rows, r, owner, token) <==> tokens == []
    ensures forall owner, token: nat | r in old(table.rows) && token <= old(table.rows)[r].token && !Current(old(table.rows), r, owner, token) ::
      !Current(table.rows, r, owner, token)
    ensures forall owner, token: nat, other, next: nat | Current(table.rows, r, owner, token) && Current(table.rows, r, other, next) ::
      owner == other && token == next
  {
    hide Grows;
    tokens := [];
    GrowsSelf(table.rows);
    for i := 0 to |calls|
      invariant table.Valid() && Grows(old(table.rows), table.rows)
      invariant forall k :: 0 <= k < |tokens| ==> tokens[k] == TokenOf(old(table.rows), r) + 1 + k
      invariant TokenOf(table.rows, r) == TokenOf(old(table.rows), r) + |tokens|
    {
      ghost var before := table.rows;
      var token := Perform(table, calls[i], r);
      if token.Some? { tokens := tokens + [token.value]; }
      GrowsOn(old(table.rows), before, table.rows);
    }
    if r in old(table.rows) { GrownOwner(old(table.rows), table.rows, r); }
  }

  lemma GrownOwner(a: Leases, b: Leases, r: Resource)
    requires Grows(a, b) && r in a
    ensures r in b && a[r].token <= b[r].token && (a[r].token == b[r].token ==> a[r].owner == b[r].owner)
  {
  }

  lemma GrowsSelf(a: Leases)
    ensures Grows(a, a)
  {
  }

  lemma GrowsOn(a: Leases, b: Leases, c: Leases)
    requires Grows(a, b) && Grows(b, c)
    ensures Grows(a, c)
  {
    forall r | r in a ensures r in c && a[r].token <= c[r].token && (a[r].token == c[r].token ==> a[r].owner == c[r].owner) { assert r in b; }
  }
}
