/**
  Maintenance leases on uploads and on trashed roots: time-bounded, taken over when they
  expire, and fenced by owner.
 */
module Leases {
  import opened Base
  import opened Namespace
  import opened Uploads

  datatype Lease = Lease(owner: Id, until: Time, notBefore: Time, attempts: nat, failed: bool, cleanupPending: bool)

  /** What the zero value of an absent entry means. */
  const NO_LEASE := Lease(NONE, ZERO, ZERO, 0, false, false)
  /** The first instant of the year 9999, the marker of a finished purge. */
  const FOREVER: Time := 253370764800

  type Table = map<Id, Lease>

  function Of(t: Table, id: Id): Lease {
    if id in t then t[id] else NO_LEASE
  }

  predicate Claimable(l: Lease, now: Time) {
    !(l.until != ZERO && l.until > now) && !(l.notBefore != ZERO && l.notBefore > now)
  }

  function Claimed(l: Lease, owner: Id, until: Time): Lease {
    l.(owner := owner, until := until)
  }

  // ------------------------------------------------------------- one table, all calls

  datatype Op =
    /** A claim round of `owner` that picks `ids`. */
    | Take(owner: Id, now: Time, until: Time, ids: set<Id>)
    /** FinishUploadMaintenance or ReleaseRecycleMaintenance. */
    | Return(owner: Id, id: Id, retryAt: Time, failed: bool, cleanupPending: bool)
    /** A foreground call that sets or clears the cleanup mark of an upload. */
    | MarkCleanup(id: Id, pending: bool)
    /** FinishPurge of a root, by whoever purged it. */
    | Retire(id: Id)

  function Returned(l: Lease, retryAt: Time, failed: bool, cleanupPending: bool): Lease {
    l.(owner := NONE, until := ZERO, notBefore := if !failed && !cleanupPending then ZERO
        else retryAt, failed := failed, cleanupPending := cleanupPending, attempts := if failed then l.attempts + 1
            else l.attempts)
  }

  function Marked(l: Lease, pending: bool): Lease {
    if pending then l.(cleanupPending := true) else l.(cleanupPending := false, failed := false, notBefore := ZERO)
  }

  function Apply(t: Table, op: Op): Table {
    match op
    case Take(owner, now, until, ids) => map id | id in t.Keys + ids ::
        if id in ids then Claimed(Of(t, id), owner, until) else t[id]
    case Return(owner, id, retryAt, failed, pending) => if id in t
        && t[id].owner == owner then t[id := Returned(t[id], retryAt, failed, pending)] else t
    case MarkCleanup(id, pending) => t[id := Marked(Of(t, id), pending)]
    case Retire(id) => t[id := Of(t, id).(owner := NONE, until := ZERO, notBefore := FOREVER, failed := false)]
  }

  /** Does a Return by this owner succeed? Otherwise it is an error. */
  predicate Owns(t: Table, owner: Id, id: Id) {
    id in t && t[id].owner == owner
  }

  // --------------------------------------------------- what the owners believe they hold

  /** `held` remembers until when each owner was promised each id, unless the promise ended early. */
  datatype World = World(leases: Table, held: map<(Id, Id), Time>, now: Time)

  predicate Admissible(w: World, op: Op) {
    match op
    case Take(owner, now, until, ids) => owner != NONE && w.now <= now < until && forall id :: id in ids ==>
        Claimable(Of(w.leases, id), now)
    case Return(owner, _, _, _, _) => owner != NONE
    case _ => true
  }

  function Next(w: World, op: Op): World {
    World(
      Apply(w.leases, op),
      match op
      case Take(owner, _, until, ids) => map k | k in w.held.Keys + (set id | id in ids :: (owner, id)) ::
          if k.0 == owner && k.1 in ids then until else w.held[k]
      case Return(owner, id, _, _, _) => if Owns(w.leases, owner, id) then w.held - {(owner, id)} else w.held
      case MarkCleanup(_, _) => w.held
      case Retire(id) => map k | k in w.held && k.1 != id :: w.held[k],
      if op.Take? then op.now else w.now)
  }

  function Run(w: World, ops: seq<Op>): World
    decreases |ops|
  {
    if ops == [] then w else Run(Next(w, ops[0]), ops[1..])
  }

  predicate AdmissibleRun(w: World, ops: seq<Op>)
    decreases |ops|
  {
    ops == [] || (Admissible(w, ops[0]) && AdmissibleRun(Next(w, ops[0]), ops[1..]))
  }

  /** An unexpired, unfinished lease, as its owner sees it. */
  predicate Live(w: World, owner: Id, id: Id) {
    (owner, id) in w.held && w.held[(owner, id)] > w.now
  }

  ghost predicate Inv(w: World) {
    forall owner, id {:trigger Live(w, owner, id)} :: Live(w, owner, id) ==>
        Owns(w.leases, owner, id) && w.leases[id].until == w.held[(owner, id)]
  }

  lemma StepKeepsInv(w: World, op: Op)
    requires Inv(w) && Admissible(w, op)
    ensures Inv(Next(w, op))
  {
    var x := Next(w, op);
    forall owner, id {:trigger Live(x, owner, id)} | Live(x, owner, id)
        ensures Owns(x.leases, owner, id) && x.leases[id].until == x.held[(owner, id)] {
      assert !(op.Take? && owner == op.owner && id in op.ids) ==> Live(w, owner, id);
    }
  }

  lemma {:induction false} RunKeepsInv(w: World, ops: seq<Op>)
    requires Inv(w) && AdmissibleRun(w, ops)
    ensures Inv(Run(w, ops))
    decreases |ops|
  {
    if ops == [] {
    } else {
      StepKeepsInv(w, ops[0]);
      RunKeepsInv(Next(w, ops[0]), ops[1..]);
    }
  }

  /** In every run at most one owner holds an unexpired, unfinished lease, and its return will be accepted. */
  lemma OneLiveLease(ops: seq<Op>, a: Id, b: Id, id: Id)
    requires AdmissibleRun(World(map[], map[], ZERO), ops)
    requires Live(Run(World(map[], map[], ZERO), ops), a, id) && Live(Run(World(map[], map[], ZERO), ops), b, id)
    ensures a == b && Owns(Run(World(map[], map[], ZERO), ops).leases, a, id)
  {
    RunKeepsInv(World(map[], map[], ZERO), ops);
  }

  /** Nobody else can claim what is live. */
  lemma LiveLeaseIsNotClaimable(w: World, owner: Id, id: Id, now: Time)
    requires Inv(w) && Live(w, owner, id) && now < w.held[(owner, id)]
    ensures !Claimable(Of(w.leases, id), now)
  {
  }

  /** Is this the end of the lease `owner` holds on `id`? */
  predicate Ends(op: Op, owner: Id, id: Id) {
    (op.Return? && op.owner == owner && op.id == id) || (op.Retire? && op.id == id)
  }

  lemma LeaseStep(w: World, op: Op, owner: Id, id: Id, until: Time)
    requires Owns(w.leases, owner, id) && w.leases[id].until == until && Admissible(w, op) && !Ends(op, owner, id)
    requires op.Take? ==> op.now < until
    ensures Owns(Next(w, op).leases, owner, id) && Next(w, op).leases[id].until == until
  {
  }

  /** A lease lasts until the time it was taken for, unless its owner returns it or its root is retired. */
  lemma {:induction false} LeaseLasts(w: World, ops: seq<Op>, owner: Id, id: Id, until: Time)
    requires Owns(w.leases, owner, id) && w.leases[id].until == until && AdmissibleRun(w, ops)
    requires forall i :: 0 <= i < |ops| ==> !Ends(ops[i], owner, id) && (ops[i].Take? ==> ops[i].now < until)
    ensures Owns(Run(w, ops).leases, owner, id) && Run(w, ops).leases[id].until == until
    decreases |ops|
  {
    if ops == [] {
    } else {
      assert !Ends(ops[0], owner, id);
      LeaseStep(w, ops[0], owner, id, until);
      LeaseLasts(Next(w, ops[0]), ops[1..], owner, id, until);
    }
  }

  /** Whoever takes a lease gets it for the time asked, on every id picked and on no other. */
  lemma TakenLeaseIsHeld(t: Table, owner: Id, now: Time, until: Time, ids: set<Id>, id: Id)
    ensures var u := Apply(t, Take(owner, now, until, ids));
            && (id in ids ==> Owns(u, owner, id) && u[id].until == until && u[id].attempts == Of(t, id).attempts)
            && (id !in ids ==> Of(u, id) == Of(t, id) && (id in u <==> id in t))
  {
  }

  /** A lease that has run out, and whose back-off has, can be taken over; nothing else can. */
  lemma ClaimableIff(l: Lease, now: Time)
    ensures Claimable(l, now) <==> l.until <= now && l.notBefore <= now
  {
  }

  /** A returned lease is free: at once after success, from the retry time on after a failure, which is counted. */
  lemma ReturnedLeaseIsFree(t: Table, owner: Id, id: Id, retryAt: Time, failed: bool, pending: bool, now: Time)
    requires Owns(t, owner, id) && owner != NONE
    ensures var u := Apply(t, Return(owner, id, retryAt, failed, pending));
            && !Owns(u, owner, id) && id in u && (Claimable(u[id], now) <==> (failed || pending ==> retryAt <= now))
            && u[id].attempts == t[id].attempts + (if failed then 1 else 0) && u[id].failed == failed
            && u[id].cleanupPending == pending && forall x :: x != id ==> Of(u, x) == Of(t, x)
  {
  }

  /** A foreground call leaves the lease to its owner; a cleared mark clears failure and back-off with it. */
  lemma MarkingKeepsTheLease(t: Table, id: Id, pending: bool)
    ensures var u := Apply(t, MarkCleanup(id, pending));
            && id in u && u[id].cleanupPending == pending
            && u[id].owner == Of(t, id).owner && u[id].until == Of(t, id).until && u[id].attempts == Of(t, id).attempts
            && (pending ==> u[id].failed == Of(t, id).failed && u[id].notBefore == Of(t, id).notBefore)
            && (!pending ==> !u[id].failed && u[id].notBefore == ZERO)
            && forall x :: x != id ==> Of(u, x) == Of(t, x)
  {
  }

  /** A return by anybody else changes nothing. */
  lemma ForeignReturnIsRefused(t: Table, owner: Id, id: Id, retryAt: Time, failed: bool, pending: bool)
    requires !Owns(t, owner, id)
    ensures Apply(t, Return(owner, id, retryAt, failed, pending)) == t
  {
  }

  // --------------------------------------------------------------------------- fencing

  predicate Reclaims(op: Op, owner: Id, id: Id) {
    op.Take? && op.owner == owner && id in op.ids
  }

  /** Once superseded, an owner stays so through every run in which it does not claim again. */
  lemma {:induction false} SupersededStays(w: World, ops: seq<Op>, owner: Id, id: Id)
    requires owner != NONE && !Owns(w.leases, owner, id) && AdmissibleRun(w, ops)
    requires forall i :: 0 <= i < |ops| ==> !Reclaims(ops[i], owner, id)
    ensures !Owns(Run(w, ops).leases, owner, id)
    decreases |ops|
  {
    if ops == [] {
    } else {
      assert !Reclaims(ops[0], owner, id);
      SupersededStays(Next(w, ops[0]), ops[1..], owner, id);
    }
  }

  // --------------------------------------------------------------- the finished purge

  ghost predicate Retired(w: World, id: Id) {
    id in w.leases && w.leases[id].owner == NONE && w.leases[id].until == ZERO && w.leases[id].notBefore == FOREVER
  }

  lemma RetiringRetires(w: World, id: Id, other: Id)
    ensures Retired(Next(w, Retire(id)), id)
    ensures other != id ==> Of(Next(w, Retire(id)).leases, other) == Of(w.leases, other)
  {
  }

  /** The operations on the table of trashed roots, before the year 9999. */
  predicate OnRecycle(op: Op) {
    !op.MarkCleanup? && (op.Take? ==> op.now < FOREVER)
  }

  /** After FinishPurge no claim round picks the root again before the year 9999. */
  lemma {:induction false} FinishedPurgeIsNotLeased(w: World, ops: seq<Op>, id: Id)
    requires Retired(w, id) && AdmissibleRun(w, ops) && forall i :: 0 <= i < |ops| ==> OnRecycle(ops[i])
    ensures Retired(Run(w, ops), id)
    ensures forall i :: 0 <= i < |ops| && ops[i].Take? ==> id !in ops[i].ids
    decreases |ops|
  {
    if ops == [] {
    } else {
      assert OnRecycle(ops[0]);
      assert ops[0].Take? && id in ops[0].ids ==> Claimable(Of(w.leases, id), ops[0].now);
      FinishedPurgeIsNotLeased(Next(w, ops[0]), ops[1..], id);
      forall i | 0 <= i < |ops| && ops[i].Take? ensures id !in ops[i].ids {
        if i > 0 { assert ops[i] == ops[1..][i - 1]; }
      }
    }
  }
}
