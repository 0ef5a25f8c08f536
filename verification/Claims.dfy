/**
  What an idempotency claim gives its holder: the key is his until the lock or the record runs out, free
  for a matching request afterwards, and his directory is made and replayed.
 */
module Claims {
  import opened Base
  import opened Namespace
  import opened Idempotency
  import opened IdempotentCreation
  import Effects

  // ------------------------------------------------------------------------- one claim

  /** The record of this key lives and is in somebody else's hands. */
  predicate Locked(t: Table, c: Claimant, now: Time) {
    && c.key in t && now < t[c.key].expiresAt && t[c.key].progress.Pending? && t[c.key].progress.token != c.token
    && now < t[c.key].progress.lockedUntil
  }

  predicate DigestDiffers(t: Table, c: Claimant, now: Time) {
    c.key in t && now < t[c.key].expiresAt && t[c.key].digest != c.digest
  }

  /** A claim is refused, and changes nothing, exactly for another digest or while the key is locked. */
  lemma ClaimIsRefusedIff(t: Table, c: Claimant, lockedUntil: Time, expiresAt: Time, now: Time)
    ensures var (u, r) := Claim(t, c, lockedUntil, expiresAt, now);
            && (r.Err? <==> DigestDiffers(t, c, now) || Locked(t, c, now))
            && (r.Err? ==>
                  u == t && r.code == if DigestDiffers(t, c, now) then IdempotencyConflict else DependencyUnavailable)
  {
  }

  /** A claim that is not refused gives the key to the claimant, or answers what was made under it. */
  lemma GrantedClaimHolds(t: Table, c: Claimant, lockedUntil: Time, expiresAt: Time, now: Time)
    requires !DigestDiffers(t, c, now) && !Locked(t, c, now)
    ensures var (u, r) := Claim(t, c, lockedUntil, expiresAt, now);
            && r.Ok? && c.key in u && u[c.key] == r.value && u == t[c.key := r.value]
            && if c.key in t && now < t[c.key].expiresAt && t[c.key].progress.Completed? then u == t
               else Holds(u, c) && ((Holds(t, c) && now < t[c.key].expiresAt)
                                    || r.value == Record(c.digest, Pending(c.token, lockedUntil), expiresAt))
  {
  }

  /** A key its holder released is free for any claim. */
  lemma ReleasedKeyIsFree(t: Table, c: Claimant, other: Claimant, lockedUntil: Time, expiresAt: Time, now: Time)
    requires Holds(t, c) && other.key == c.key
    ensures Holds(Claim(Release(t, c), other, lockedUntil, expiresAt, now).0, other)
    ensures forall k :: k != c.key && k in t ==> k in Release(t, c) && Release(t, c)[k] == t[k]
  {
  }

  // ---------------------------------------------------------------- the lock over runs

  /** The clock stays before `limit` throughout the run. */
  ghost predicate Until(w: World, acts: seq<Act>, limit: Time)
    decreases |acts|
  {
    w.now < limit && (acts == [] || Until(Next(w, acts[0]), acts[1..], limit))
  }

  predicate NotBy(acts: seq<Act>, c: Id) {
    forall i :: 0 <= i < |acts| && acts[i].Proceed? ==> acts[i].c != c
  }

  /** Request `c` holds this record of its key and is about to create its directory. */
  ghost predicate InHand(w: World, c: Id, record: Record) {
    && c in w.requests && w.requests[c].phase == Holding && Holds(w.table, w.requests[c].claim)
    && w.table[w.requests[c].claim.key] == record
  }

  lemma LockStep(w: World, a: Act, c: Id, record: Record)
    requires OwnTokens(w) && InHand(w, c, record) && Admissible(w, a)
    requires w.now < record.progress.lockedUntil && w.now < record.expiresAt && !(a.Proceed? && a.c == c)
    ensures OwnTokens(Next(w, a)) && InHand(Next(w, a), c, record) && Next(w, a).requests[c] == w.requests[c]
  {
  }

  /** Before lock and record run out, nothing anybody else does takes the key away. */
  lemma {:induction false} LockHolds(w: World, acts: seq<Act>, c: Id, record: Record)
    requires OwnTokens(w) && InHand(w, c, record) && AdmissibleRun(w, acts) && NotBy(acts, c)
    requires Until(w, acts, record.progress.lockedUntil) && Until(w, acts, record.expiresAt)
    ensures InHand(Run(w, acts), c, record) && Run(w, acts).requests[c] == w.requests[c] && OwnTokens(Run(w, acts))
    ensures Run(w, acts).now < record.progress.lockedUntil && Run(w, acts).now < record.expiresAt
    decreases |acts|
  {
    if acts == [] {
    } else {
      LockStep(w, acts[0], c, record);
      LockHolds(Next(w, acts[0]), acts[1..], c, record);
    }
  }

  /** Meanwhile every other request under the key is turned away, and changes nothing. */
  lemma OthersAreTurnedAway(w: World, acts: seq<Act>, c: Id, record: Record, e: Id, lockedUntil: Time, expiresAt: Time)
    requires OwnTokens(w) && InHand(w, c, record) && AdmissibleRun(w, acts) && NotBy(acts, c)
    requires Until(w, acts, record.progress.lockedUntil) && Until(w, acts, record.expiresAt)
    requires e != c && e in Run(w, acts).requests && Run(w, acts).requests[e].phase == Asking
    requires Run(w, acts).requests[e].claim.key == w.requests[c].claim.key
    ensures var x := Run(w, acts);
            var y := Next(x, Proceed(e, lockedUntil, expiresAt));
            && y.table == x.table && y.drive == x.drive && y.log == x.log && e in y.requests
            && y.requests[e].phase == Answered(Err(if x.requests[e].claim.digest == record.digest
                                                   then DependencyUnavailable else IdempotencyConflict))
  {
    LockHolds(w, acts, c, record);
  }

  /**
    A request that creates before its lock and its record run out makes its directory, if the place is free:
    it is answered with a new node that is listed there, and the key is completed with it.
   */
  lemma CreationInTime(w: World, acts: seq<Act>, c: Id, record: Record, lockedUntil: Time, expiresAt: Time)
    requires IdempotentCreation.Inv(w) && OwnTokens(w) && InHand(w, c, record)
    requires AdmissibleRun(w, acts) && NotBy(acts, c)
    requires Until(w, acts, record.progress.lockedUntil) && Until(w, acts, record.expiresAt)
    requires var x, q := Run(w, acts), w.requests[c];
             && Admissible(x, Proceed(c, lockedUntil, expiresAt))
             && OpenDirectory(x.drive, q.claim.key.tenant, q.parent)
             && !Effects.Occupied(x.drive, q.claim.key.tenant, q.parent, q.name, NONE)
    ensures var x, q := Run(w, acts), w.requests[c];
            var y := Next(x, Proceed(c, lockedUntil, expiresAt));
            && c in y.requests && y.requests[c].phase == Answered(Ok((q.node, false)))
            && q.node !in x.drive.nodes && Effects.OnlyNode(x.drive, y.drive, q.node)
            && Effects.ListedOnlyIn(y.drive, q.claim.key.tenant, q.node, q.parent, q.name)
            && Answers(y, q.claim.key, record.digest, q.node, record.expiresAt)
  {
    LockHolds(w, acts, c, record);
    RunKeepsInv(w, acts);
    var x, q := Run(w, acts), w.requests[c];
    Effects.CreateDirectorySucceeds(x.drive, q.claim.key.tenant, q.node, q.parent, q.display, q.name, x.now);
    Effects.CreatedDirectoryIsListed(x.drive, q.claim.key.tenant, q.node, q.parent, q.display, q.name, x.now);
  }

  /** A request whose directory has no place is told so in two calls; its key is free again, nothing was made. */
  lemma FailedCreationFreesTheKey(w: World, c: Id, record: Record, a: Act, b: Act)
    requires NONE !in w.drive.nodes && InHand(w, c, record) && a.Proceed? && b.Proceed? && a.c == b.c == c
    requires var q := w.requests[c];
             !OpenDirectory(w.drive, q.claim.key.tenant, q.parent)
             || Effects.Occupied(w.drive, q.claim.key.tenant, q.parent, q.name, NONE)
    ensures var q := w.requests[c];
            var y := Next(Next(w, a), b);
            && y.drive == w.drive && y.log == w.log && y.table == w.table - {q.claim.key} && c in y.requests
            && y.requests[c].phase == Answered(Err(if OpenDirectory(w.drive, q.claim.key.tenant, q.parent)
                                                   then NameConflict else NotFound))
  {
    var q := w.requests[c];
    Effects.CreateDirectorySucceeds(w.drive, q.claim.key.tenant, q.node, q.parent, q.display, q.name, w.now);
    Effects.OccupiedIsTaken(w.drive, q.claim.key.tenant, q.parent, q.name, NONE);
  }

  /** From the end of the lock on, a matching request takes the key over; the first one is fenced from then on. */
  lemma TakeOver(w: World, c: Id, e: Id, record: Record, lockedUntil: Time, expiresAt: Time)
    requires OwnTokens(w) && InHand(w, c, record) && record.progress.lockedUntil <= w.now
    requires e != c && e in w.requests && w.requests[e].phase == Asking
    requires w.requests[e].claim.key == w.requests[c].claim.key && w.requests[e].claim.digest == record.digest
    ensures var x := Next(w, Proceed(e, lockedUntil, expiresAt));
            && InHand(x, e, Record(record.digest, Pending(w.requests[e].claim.token, lockedUntil), expiresAt))
            && Fenced(x, c)
  {
  }

  /** A first request under a key gets the lock it asked for. */
  lemma FirstRequestGetsTheKey(w: World, c: Id, lockedUntil: Time, expiresAt: Time)
    requires c in w.requests && w.requests[c].phase == Asking && StartsLifetime(w.table, w.requests[c].claim.key, w.now)
    ensures InHand(Next(w, Proceed(c, lockedUntil, expiresAt)), c,
                   Record(w.requests[c].claim.digest, Pending(w.requests[c].claim.token, lockedUntil), expiresAt))
  {
  }

  // ------------------------------------------------------------------ replays over runs

  /** The key is completed with `resource` until `end`. */
  ghost predicate Answers(w: World, key: Key, digest: Id, resource: Id, end: Time) {
    key in w.table && w.table[key] == Record(digest, Completed(resource), end)
  }

  lemma {:induction false} AnswerStays(w: World, acts: seq<Act>, key: Key, digest: Id, resource: Id, end: Time)
    requires Answers(w, key, digest, resource, end) && AdmissibleRun(w, acts) && Until(w, acts, end)
    ensures Answers(Run(w, acts), key, digest, resource, end) && Run(w, acts).now < end
    decreases |acts|
  {
    if acts == [] {
    } else {
      AnswerStep(w, acts[0], key, digest, resource, end);
      AnswerStays(Next(w, acts[0]), acts[1..], key, digest, resource, end);
    }
  }

  lemma AnswerStep(w: World, a: Act, key: Key, digest: Id, resource: Id, end: Time)
    requires Answers(w, key, digest, resource, end) && w.now < end
    ensures Answers(Next(w, a), key, digest, resource, end)
  {
  }

  /** Until the record expires, every matching request is answered with the directory that was made, in two calls. */
  lemma MatchingRequestIsAnswered(
    w: World, acts: seq<Act>, key: Key, digest: Id, resource: Id, end: Time, e: Id, a: Act, b: Act)
    requires IdempotentCreation.Inv(w) && Answers(w, key, digest, resource, end) && AdmissibleRun(w, acts)
    requires Until(w, acts, end) && e in Run(w, acts).requests && Run(w, acts).requests[e].phase == Asking
    requires Run(w, acts).requests[e].claim.key == key && Run(w, acts).requests[e].claim.digest == digest
    requires a.Proceed? && b.Proceed? && a.c == b.c == e
    ensures var x := Run(w, acts);
            var y := Next(Next(x, a), b);
            && y.table == x.table && y.drive == x.drive && e in y.requests
            && y.requests[e].phase == Answered(Ok((resource, true)))
  {
    AnswerStays(w, acts, key, digest, resource, end);
    RunKeepsInv(w, acts);
    assert RecordOk(Run(w, acts), key);
  }
}
