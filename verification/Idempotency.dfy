/**
  Idempotency records: claims with a token, a lock time and an expiry, taken over when the
  lock runs out and replaced when the record expires.
 */
module Idempotency {
  import opened Base
  import Sorting

  datatype Key = Key(tenant: Id, principal: Id, hash: Id)
  datatype Progress = Pending(token: Id, lockedUntil: Time) | Completed(resource: Id)
  datatype Record = Record(digest: Id, progress: Progress, expiresAt: Time)
  type Table = map<Key, Record>

  /** What a request brings to the table: its token is generated for it alone. */
  datatype Claimant = Claimant(key: Key, digest: Id, token: Id)

  function Opened(c: Claimant, lockedUntil: Time, expiresAt: Time): Record {
    Record(c.digest, Pending(c.token, lockedUntil), expiresAt)
  }

  function Claim(t: Table, c: Claimant, lockedUntil: Time, expiresAt: Time, now: Time): (Table, Result<Record>) {
    if c.key !in t || now >= t[c.key].expiresAt then
      (t[c.key := Opened(c, lockedUntil, expiresAt)], Ok(Opened(c, lockedUntil, expiresAt)))
    else
      var r := t[c.key];
      if r.digest != c.digest then (t, Err(IdempotencyConflict))
      else if r.progress.Completed? || r.progress.token == c.token then (t, Ok(r))
      else if now < r.progress.lockedUntil then (t, Err(DependencyUnavailable))
      else (t[c.key := Opened(c, lockedUntil, expiresAt)], Ok(Opened(c, lockedUntil, expiresAt)))
  }

  /** Does the claimant hold the pending record? */
  predicate Holds(t: Table, c: Claimant) {
    c.key in t && t[c.key].digest == c.digest && t[c.key].progress.Pending? && t[c.key].progress.token == c.token
  }

  function Release(t: Table, c: Claimant): Table {
    if Holds(t, c) then t - {c.key} else t
  }

  function Complete(t: Table, c: Claimant, resource: Id): (Table, Result<()>) {
    if !Holds(t, c) then (t, Err(InvalidState))
    else (t[c.key := t[c.key].(progress := Completed(resource))], Ok(()))
  }

  predicate IsExpired(t: Table, k: Key, now: Time) {
    k in t && t[k].expiresAt <= now
  }

  /** The order in which expired keys are deleted. */
  predicate Before(a: Key, b: Key) {
    a.tenant < b.tenant || (a.tenant == b.tenant
        && (a.principal < b.principal || (a.principal == b.principal && a.hash < b.hash)))
  }

  predicate Sorted(s: seq<Key>) {
    Sorting.Ordered(Before, s)
  }

  // -------------------------------------------------------------------- the table itself

  /** The `idempotency` map of the repository, changed in place under its lock. */
  class Records {
    var table: Table

    constructor ()
      ensures table == map[]
    {
      table := map[];
    }

    method ClaimIdempotency(c: Claimant, lockedUntil: Time, expiresAt: Time, now: Time) returns (r: Result<Record>)
      modifies this
      ensures (table, r) == Claim(old(table), c, lockedUntil, expiresAt, now)
    {
      if c.key !in table || now >= table[c.key].expiresAt {
        var created := Record(c.digest, Pending(c.token, lockedUntil), expiresAt);
        table := table[c.key := created];
        return Ok(created);
      }
      var record := table[c.key];
      if record.digest != c.digest { return Err(IdempotencyConflict); }
      if record.progress.Completed? || record.progress.token == c.token { return Ok(record); }
      if now < record.progress.lockedUntil { return Err(DependencyUnavailable); }
      record := record.(progress := Pending(c.token, lockedUntil), expiresAt := expiresAt);
      table := table[c.key := record];
      return Ok(record);
    }

    method ReleaseIdempotency(c: Claimant)
      modifies this
      ensures table == Release(old(table), c)
    {
      if c.key in table && table[c.key].progress.Pending? && table[c.key].digest == c.digest
          && table[c.key].progress.token == c.token {
        table := table - {c.key};
      }
    }

    method CompleteIdempotency(c: Claimant, resource: Id) returns (r: Result<()>)
      modifies this
      ensures (table, r) == Complete(old(table), c, resource)
    {
      if c.key !in table || !table[c.key].progress.Pending? || table[c.key].digest != c.digest
          || table[c.key].progress.token != c.token {
        return Err(InvalidState);
      }
      table := table[c.key := table[c.key].(progress := Completed(resource))];
      return Ok(());
    }

    /** Deletes only expired records, all of them or the first `limit` of them in key order. */
    method DeleteExpired(now: Time, limit: nat) returns (deleted: seq<Key>)
      modifies this
      ensures forall k :: k in deleted ==> IsExpired(old(table), k, now)
      ensures Sorted(deleted)
      ensures forall k :: k in table <==> k in old(table) && k !in deleted
      ensures forall k :: k in table ==> table[k] == old(table)[k]
      ensures |deleted| < limit || limit == 0 ==> forall k :: k in table ==> now < table[k].expiresAt
      ensures limit == 0 || |deleted| <= limit
      ensures forall k, i :: IsExpired(table, k, now) && 0 <= i < |deleted| ==> Before(deleted[i], k)
    {
      var keys := ExpiredKeys(now);
      deleted := if limit > 0 && |keys| > limit then keys[..limit] else keys;
      RestComesAfter(keys, |deleted|);
      DeleteEach(deleted);
    }

    method DeleteEach(keys: seq<Key>)
      modifies this
      ensures forall k :: k in table <==> k in old(table) && k !in keys
      ensures forall k :: k in table ==> table[k] == old(table)[k]
    {
      for i := 0 to |keys|
        invariant forall k :: k in table <==> k in old(table) && k !in keys[..i]
        invariant forall k :: k in table ==> table[k] == old(table)[k]
      {
        assert keys[..i + 1] == keys[..i] + [keys[i]];
        table := table - {keys[i]};
      }
      assert keys[..|keys|] == keys;
    }

    method ExpiredKeys(now: Time) returns (keys: seq<Key>)
      ensures forall k :: k in keys <==> IsExpired(table, k, now)
      ensures Sorted(keys)
    {
      keys := [];
      var todo := table.Keys;
      while todo != {}
        invariant todo <= table.Keys
        invariant forall k :: k in keys <==> k !in todo && IsExpired(table, k, now)
        invariant Sorted(keys)
        decreases todo
      {
        var k :| k in todo;
        todo := todo - {k};
        if table[k].expiresAt <= now {
          Sorting.InsertKeepsOrdered(Before, k, keys);
          keys := Sorting.Insert(Before, k, keys);
        }
      }
    }
  }

  lemma RestComesAfter(keys: seq<Key>, n: nat)
    requires Sorted(keys) && n <= |keys|
    ensures Sorted(keys[..n]) && forall k, i :: k in keys && k !in keys[..n] && 0 <= i < n ==> Before(keys[..n][i], k)
  {
    assert keys == keys[..n] + keys[n..];
  }

  // --------------------------------------------------------- deletion is unobservable

  datatype TableOp =
    | OpClaim(c: Claimant, lockedUntil: Time, expiresAt: Time, now: Time)
    | OpRelease(c: Claimant)
    | OpComplete(c: Claimant, resource: Id)
    /** DeleteExpired at `now`, whichever expired records its limit makes it pick. */
    | OpDelete(picked: set<Key>, now: Time)

  function Apply(t: Table, op: TableOp): Table {
    match op
    case OpClaim(c, l, e, now) => Claim(t, c, l, e, now).0
    case OpRelease(c) => Release(t, c)
    case OpComplete(c, resource) => Complete(t, c, resource).0
    case OpDelete(picked, now) => map k | k in t && !(k in picked && IsExpired(t, k, now)) :: t[k]
  }

  /** The answers the claims of a run get, in order. */
  function Answers(t: Table, ops: seq<TableOp>): seq<Result<Record>>
    decreases |ops|
  {
    if ops == [] then []
    else (match ops[0] case OpClaim(c, l, e, now) => [Claim(t, c, l, e, now).1] case _ => []) + Answers(Apply(t,
        ops[0]), ops[1..])
  }

  function WithoutDeletions(ops: seq<TableOp>): seq<TableOp> {
    if ops == [] then [] else (if ops[0].OpDelete? then [] else [ops[0]]) + WithoutDeletions(ops[1..])
  }

  /** Claims and deletions read a clock that never goes back. */
  predicate Timely(ops: seq<TableOp>, from: Time)
    decreases |ops|
  {
    ops == [] ||
    (match ops[0]
     case OpClaim(_, _, _, now) => from <= now && Timely(ops[1..], now)
     case OpDelete(_, now) => from <= now && Timely(ops[1..], now)
     case _ => Timely(ops[1..], from))
  }

  /** `u` is `t` without some records that have expired by `now`. */
  ghost predicate Swept(t: Table, u: Table, now: Time) {
    && (forall k :: k in u ==> k in t && u[k] == t[k])
    && (forall k :: k in t && k !in u ==> t[k].expiresAt <= now)
  }

  /** A sweep never changes the answer of a later claim. */
  lemma SweepKeepsAnswer(t: Table, u: Table, swept: Time, c: Claimant, lockedUntil: Time, expiresAt: Time, now: Time)
    requires Swept(t, u, swept) && swept <= now
    ensures Claim(t, c, lockedUntil, expiresAt, now).1 == Claim(u, c, lockedUntil, expiresAt, now).1
    ensures Swept(Claim(t, c, lockedUntil, expiresAt, now).0, Claim(u, c, lockedUntil, expiresAt, now).0, now)
  {
  }

  lemma QuietOpKeepsSwept(t: Table, u: Table, now: Time, op: TableOp)
    requires Swept(t, u, now) && (op.OpRelease? || op.OpComplete?)
    ensures Swept(Apply(t, op), Apply(u, op), now)
  {
  }

  lemma {:induction false} SweptRunsAgree(t: Table, u: Table, ops: seq<TableOp>, from: Time)
    requires Swept(t, u, from) && Timely(ops, from)
    ensures Answers(u, ops) == Answers(t, WithoutDeletions(ops))
    decreases |ops|
  {
    if ops == [] {
    } else {
      var rest := WithoutDeletions(ops[1..]);
      match ops[0]
      case OpClaim(c, l, e, now) =>
        SweepKeepsAnswer(t, u, from, c, l, e, now);
        SweptRunsAgree(Apply(t, ops[0]), Apply(u, ops[0]), ops[1..], now);
        assert ([ops[0]] + rest)[1..] == rest;
      case OpDelete(_, now) =>
        SweptRunsAgree(t, Apply(u, ops[0]), ops[1..], now);
        assert WithoutDeletions(ops) == rest;
        assert Answers(u, ops) == Answers(Apply(u, ops[0]), ops[1..]);
      case _ =>
        QuietOpKeepsSwept(t, u, from, ops[0]);
        SweptRunsAgree(Apply(t, ops[0]), Apply(u, ops[0]), ops[1..], from);
        assert ([ops[0]] + rest)[1..] == rest;
    }
  }

  /** Over whole runs: deleting expired records, at any times and in any portions, changes no claim's answer. */
  lemma DeletionIsUnobservable(t: Table, ops: seq<TableOp>, from: Time)
    requires Timely(ops, from)
    ensures Answers(t, ops) == Answers(t, WithoutDeletions(ops))
  {
    SweptRunsAgree(t, t, ops, from);
  }
}
