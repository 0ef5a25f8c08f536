/**
  Any number of directory creations under idempotency keys, interleaved call by call with
  each other, with every namespace operation and with the deletion of expired records.
 */
module IdempotentCreation {
  import opened Base
  import opened Namespace
  import NamespaceInvariant
  import NamespaceRuns
  import opened Idempotency

  datatype Phase =
    | Asking
    | Holding
    | Replaying(resource: Id)
    | Failing(code: Code)
    /** The node, and whether it is a replay. */
    | Answered(r: Result<(Id, bool)>)

  datatype Request = Request(claim: Claimant, parent: Id, display: string, name: Name, node: Id, phase: Phase)

  /** The history: a record's lifetime opens, a resource is made under a key. */
  datatype Event = Opens(key: Key) | Makes(key: Key, resource: Id)

  datatype World = World(table: Table, drive: Drive, requests: map<Id, Request>, log: seq<Event>, now: Time)

  datatype Act =
    | Arrive(c: Id, request: Request)
    | Proceed(c: Id, lockedUntil: Time, expiresAt: Time)
    | Tree(op: NamespaceRuns.Op)
    | Sweep(picked: set<Key>)
    | Tick(now: Time)

  predicate StartsLifetime(t: Table, k: Key, now: Time) {
    k !in t || now >= t[k].expiresAt
  }

  function Ask(w: World, q: Request, lockedUntil: Time, expiresAt: Time): (Table, Phase) {
    var (t, r) := Claim(w.table, q.claim, lockedUntil, expiresAt, w.now);
    (t, if r.Err? then Answered(Err(r.code))
        else if r.value.progress.Completed? then Replaying(r.value.progress.resource)
        else if r.value.progress.token != q.claim.token then Answered(Err(Internal))
        else Holding)
  }

  /** CreateDirectory of the repository, with the claim it completes. */
  function Create(w: World, q: Request): (Table, Drive, Phase) {
    var (d, r) := CreateDirectory(w.drive, q.claim.key.tenant, q.node, q.parent, q.display, q.name, w.now);
    var (t, done) := Complete(w.table, q.claim, q.node);
    if r.Err? then (w.table, w.drive, Failing(r.code))
    else if done.Err? then (w.table, w.drive, Failing(done.code))
    else (t, d, Answered(Ok((q.node, false))))
  }

  predicate IsDirectory(d: Drive, tenant: Id, id: Id) {
    id in d.nodes && d.nodes[id].tenant == tenant && d.nodes[id].kind == Directory
  }

  function Advance(w: World, c: Id, q: Request, lockedUntil: Time, expiresAt: Time): World {
    match q.phase
    case Asking =>
      var (t, phase) := Ask(w, q, lockedUntil, expiresAt);
      w.(table := t, requests := w.requests[c := q.(phase := phase)],
         log := if StartsLifetime(w.table, q.claim.key, w.now) then w.log + [Opens(q.claim.key)] else w.log)
    case Holding =>
      var (t, d, phase) := Create(w, q);
      w.(table := t, drive := d, requests := w.requests[c := q.(phase := phase)],
         log := if phase.Answered? then w.log + [Makes(q.claim.key, q.node)] else w.log)
    case Replaying(resource) =>
      w.(requests := w.requests[c := q.(phase := Answered(if IsDirectory(w.drive, q.claim.key.tenant,
          resource) then Ok((resource, true)) else Err(Internal)))])
    case Failing(code) =>
      w.(table := Release(w.table, q.claim), requests := w.requests[c := q.(phase := Answered(Err(code)))])
    case Answered(_) => w
  }

  ghost function Next(w: World, a: Act): World {
    match a
    case Arrive(c, q) => w.(requests := w.requests[c := q])
    case Proceed(c, lockedUntil, expiresAt) => if c in w.requests then Advance(w, c, w.requests[c], lockedUntil,
        expiresAt) else w
    case Tree(op) => w.(drive := NamespaceRuns.Apply(w.drive, op))
    case Sweep(picked) => w.(table := Idempotency.Apply(w.table, OpDelete(picked, w.now)))
    case Tick(now) => w.(now := now)
  }

  /** Claim tokens and node ids are generated. */
  predicate Admissible(w: World, a: Act) {
    match a
    case Arrive(c, q) => c !in w.requests && q.phase == Asking && forall e :: e in w.requests ==>
        w.requests[e].claim.token != q.claim.token
    case Proceed(c, _, _) => c in w.requests && w.requests[c].phase == Holding ==>
        w.requests[c].node !in w.drive.nodes && w.requests[c].node != NONE
    case Tree(op) => NamespaceRuns.Admissible(w.drive, op)
    case _ => true
  }

  ghost function Run(w: World, acts: seq<Act>): World
    decreases |acts|
  {
    if acts == [] then w else Run(Next(w, acts[0]), acts[1..])
  }

  ghost predicate AdmissibleRun(w: World, acts: seq<Act>)
    decreases |acts|
  {
    acts == [] || (Admissible(w, acts[0]) && AdmissibleRun(Next(w, acts[0]), acts[1..]))
  }

  // --------------------------------------------------------------------------- history

  /** The position of the last event of a key, -1 if there is none. */
  function LastAt(log: seq<Event>, k: Key): (i: int)
    ensures -1 <= i < |log|
    ensures i >= 0 ==> log[i].key == k
    ensures forall j :: i < j < |log| ==> log[j].key != k
  {
    if log == [] then -1
    else if log[|log| - 1].key == k then |log| - 1
    else LastAt(log[..|log| - 1], k)
  }

  /** Between two creations under one key a new record lifetime was opened. */
  ghost predicate OncePerLifetime(log: seq<Event>) {
    forall i, j :: 0 <= i < j < |log| && log[i].Makes? && log[j].Makes? && log[i].key == log[j].key ==>
        OpensBetween(log, log[i].key, i, j)
  }

  ghost predicate OpensBetween(log: seq<Event>, k: Key, i: nat, j: nat) {
    exists m :: i < m < j && m < |log| && log[m] == Opens(k)
  }

  lemma LastAtAppend(log: seq<Event>, e: Event, k: Key)
    ensures LastAt(log + [e], k) == if e.key == k then |log| else LastAt(log, k)
  {
    assert (log + [e])[..|log|] == log;
  }

  lemma AppendKeepsOnce(log: seq<Event>, e: Event)
    requires OncePerLifetime(log)
    requires e.Makes? ==> LastAt(log, e.key) >= 0 && log[LastAt(log, e.key)].Opens?
    ensures OncePerLifetime(log + [e])
  {
    var more := log + [e];
    forall i, j | 0 <= i < j < |more| && more[i].Makes? && more[j].Makes? && more[i].key == more[j].key
        ensures OpensBetween(more, more[i].key, i, j) {
      if j < |log| {
        assert OpensBetween(log, log[i].key, i, j);
        var m :| i < m < j && m < |log| && log[m] == Opens(log[i].key);
        assert more[m] == Opens(more[i].key);
      } else {
        var m := LastAt(log, e.key);
        assert i < m && more[m] == Opens(more[i].key);
      }
    }
  }

  // ------------------------------------------------------------------------- invariant

  ghost predicate RecordOk(w: World, k: Key)
    requires k in w.table
  {
    var i := LastAt(w.log, k);
    && i >= 0
    && match w.table[k].progress
       case Pending(_, _) => w.log[i].Opens?
       case Completed(r) => w.log[i] == Makes(k, r) && IsDirectory(w.drive, k.tenant, r)
  }

  ghost predicate RequestOk(w: World, q: Request) {
    match q.phase
    case Replaying(r) => IsDirectory(w.drive, q.claim.key.tenant, r) && Makes(q.claim.key, r) in w.log
    case Answered(Ok((r, _))) => IsDirectory(w.drive, q.claim.key.tenant, r) && Makes(q.claim.key, r) in w.log
    case Answered(Err(code)) => code != Internal
    case Failing(code) => code != Internal
    case _ => true
  }

  ghost predicate Records(w: World) {
    forall k {:trigger RecordOk(w, k)} :: k in w.table ==> RecordOk(w, k)
  }

  ghost predicate Requests(w: World) {
    forall c {:trigger RequestOk(w, w.requests[c])} :: c in w.requests ==> RequestOk(w, w.requests[c])
  }

  ghost predicate Inv(w: World) {
    Namespace.Inv(w.drive) && OncePerLifetime(w.log) && Records(w) && Requests(w)
  }

  /** Directories stay, the history only grows. */
  ghost predicate Grows(w: World, x: World) {
    && (forall t, id :: IsDirectory(w.drive, t, id) ==> IsDirectory(x.drive, t, id))
    && w.log <= x.log
  }

  lemma RequestsGrow(w: World, x: World, c: Id, q: Request)
    requires Requests(w) && Grows(w, x) && RequestOk(x, q) && x.requests == w.requests[c := q]
    ensures Requests(x)
  {
    forall e {:trigger RequestOk(x, x.requests[e])} | e in x.requests ensures RequestOk(x, x.requests[e]) {
      if e != c { assert RequestOk(w, w.requests[e]); }
    }
  }

  /** Records that did not change stay justified while no event of their key is added. */
  lemma RecordGrows(w: World, x: World, k: Key)
    requires k in w.table && k in x.table && x.table[k] == w.table[k] && RecordOk(w, k) && Grows(w, x)
    requires x.log == w.log || (|x.log| == |w.log| + 1 && x.log[|w.log|].key != k)
    ensures RecordOk(x, k)
  {
    if x.log != w.log {
      assert x.log == w.log + [x.log[|w.log|]];
      LastAtAppend(w.log, x.log[|w.log|], k);
    }
  }

  lemma EvolvingGrows(w: World, x: World)
    requires NamespaceInvariant.Evolves(w.drive, x.drive) && w.log <= x.log
    ensures Grows(w, x)
  {
    forall t, id | IsDirectory(w.drive, t, id) ensures IsDirectory(x.drive, t, id) {
      assert NamespaceInvariant.NodeEvolves(w.drive.nodes[id], x.drive.nodes[id]);
    }
  }

  lemma AskKeepsInv(w: World, c: Id, lockedUntil: Time, expiresAt: Time)
    requires Inv(w) && c in w.requests && w.requests[c].phase == Asking
    ensures Inv(Advance(w, c, w.requests[c], lockedUntil, expiresAt))
  {
    var q := w.requests[c];
    var k := q.claim.key;
    var x := Advance(w, c, q, lockedUntil, expiresAt);
    if StartsLifetime(w.table, k, w.now) {
      AppendKeepsOnce(w.log, Opens(k));
      LastAtAppend(w.log, Opens(k), k);
    } else {
      assert RecordOk(w, k);
    }
    forall j {:trigger RecordOk(x, j)} | j in x.table ensures RecordOk(x, j) {
      if j != k { assert RecordOk(w, j); RecordGrows(w, x, j); }
    }
    assert RequestOk(x, x.requests[c]);
    RequestsGrow(w, x, c, x.requests[c]);
  }

  lemma CreateKeepsInv(w: World, c: Id)
    requires Inv(w) && c in w.requests && w.requests[c].phase == Holding && w.requests[c].node !in w.drive.nodes
    requires w.requests[c].node != NONE
    ensures Inv(Advance(w, c, w.requests[c], ZERO, ZERO))
  {
    var q := w.requests[c];
    var k := q.claim.key;
    var x := Advance(w, c, q, ZERO, ZERO);
    NamespaceInvariant.CreateDirectoryKeepsInv(w.drive, k.tenant, q.node, q.parent, q.display, q.name, w.now);
    if Create(w, q).2.Answered? {
      assert RecordOk(w, k);
      AppendKeepsOnce(w.log, Makes(k, q.node));
      LastAtAppend(w.log, Makes(k, q.node), k);
      EvolvingGrows(w, x);
    }
    CreatedRecords(w, c);
    RequestsGrow(w, x, c, x.requests[c]);
  }

  lemma CreatedRecords(w: World, c: Id)
    requires Records(w) && c in w.requests && w.requests[c].phase == Holding && w.requests[c].node !in w.drive.nodes
    ensures Records(Advance(w, c, w.requests[c], ZERO, ZERO))
  {
    var q := w.requests[c];
    var x := Advance(w, c, q, ZERO, ZERO);
    if Create(w, q).2.Answered? { LastAtAppend(w.log, Makes(q.claim.key, q.node), q.claim.key); }
    forall j {:trigger RecordOk(x, j)} | j in x.table ensures RecordOk(x, j) {
      assert RecordOk(w, j);
      if j != q.claim.key || !Create(w, q).2.Answered? { RecordGrows(w, x, j); }
    }
  }

  lemma QuietAdvanceKeepsInv(w: World, c: Id)
    requires Inv(w) && c in w.requests
    requires (w.requests[c].phase.Replaying? || w.requests[c].phase.Failing? || w.requests[c].phase.Answered?)
    ensures Inv(Advance(w, c, w.requests[c], ZERO, ZERO))
  {
    var q := w.requests[c];
    var x := Advance(w, c, q, ZERO, ZERO);
    assert RequestOk(w, q);
    forall j {:trigger RecordOk(x, j)} | j in x.table ensures RecordOk(x, j) { assert RecordOk(w, j); }
    RequestsGrow(w, x, c, x.requests[c]);
  }

  lemma RestKeepsInv(w: World, a: Act)
    requires Inv(w) && Admissible(w, a) && !a.Proceed?
    ensures Inv(Next(w, a))
  {
    var x := Next(w, a);
    if a.Tree? { NamespaceRuns.StepKeepsInv(w.drive, a.op); EvolvingGrows(w, x); }
    forall j {:trigger RecordOk(x, j)} | j in x.table
        ensures RecordOk(x, j) { assert RecordOk(w, j); RecordGrows(w, x, j); }
    forall e {:trigger RequestOk(x, x.requests[e])} | e in x.requests ensures RequestOk(x, x.requests[e]) {
      if e in w.requests { assert RequestOk(w, w.requests[e]); }
    }
  }

  lemma StepKeepsInv(w: World, a: Act)
    requires Inv(w) && Admissible(w, a)
    ensures Inv(Next(w, a))
  {
    if a.Proceed? && a.c in w.requests {
      match w.requests[a.c].phase
      case Asking => AskKeepsInv(w, a.c, a.lockedUntil, a.expiresAt);
      case Holding => CreateKeepsInv(w, a.c);
      case _ => QuietAdvanceKeepsInv(w, a.c);
    } else if !a.Proceed? {
      RestKeepsInv(w, a);
    }
  }

  lemma {:induction false} RunKeepsInv(w: World, acts: seq<Act>)
    requires Inv(w) && AdmissibleRun(w, acts)
    ensures Inv(Run(w, acts))
    decreases |acts|
  {
    if acts == [] {
    } else {
      StepKeepsInv(w, acts[0]);
      RunKeepsInv(Next(w, acts[0]), acts[1..]);
    }
  }

  /** A directory a request was answered with was made under its key. */
  predicate WasMade(q: Request, log: seq<Event>) {
    q.phase.Answered? && q.phase.r.Ok? ==> Makes(q.claim.key, q.phase.r.value.0) in log
  }

  const INITIAL := World(map[], EMPTY, map[], [], ZERO)

  /**
    In every run: within one record lifetime a key makes at most one directory, and no request
    ever meets a completed record whose directory is missing.
   */
  lemma KeysCreateOnce(acts: seq<Act>)
    requires AdmissibleRun(INITIAL, acts)
    ensures OncePerLifetime(Run(INITIAL, acts).log)
    ensures forall c :: c in Run(INITIAL, acts).requests ==>
            Run(INITIAL, acts).requests[c].phase != Answered(Err(Internal))
    ensures forall c :: c in Run(INITIAL, acts).requests ==>
            WasMade(Run(INITIAL, acts).requests[c], Run(INITIAL, acts).log)
  {
    NamespaceRuns.EmptyInv();
    assert Inv(INITIAL);
    RunKeepsInv(INITIAL, acts);
    var w := Run(INITIAL, acts);
    forall c | c in w.requests ensures RequestOk(w, w.requests[c]) { assert RequestOk(w, w.requests[c]); }
  }

  /** A request that finds a completed record is answered with the directory of that record's lifetime, which exists. */
  lemma ReplayReturnsTheResource(w: World, c: Id, lockedUntil: Time, expiresAt: Time)
    requires Inv(w) && c in w.requests && w.requests[c].phase == Asking
    requires Advance(w, c, w.requests[c], lockedUntil, expiresAt).requests[c].phase.Replaying?
    ensures var k := w.requests[c].claim.key;
            var r := Advance(w, c, w.requests[c], lockedUntil, expiresAt).requests[c].phase.resource;
            LastAt(w.log, k) >= 0 && w.log[LastAt(w.log, k)] == Makes(k, r) && IsDirectory(w.drive, k.tenant, r)
  {
    if w.requests[c].claim.key in w.table { assert RecordOk(w, w.requests[c].claim.key); }
  }

  // --------------------------------------------------------------------------- fencing

  ghost predicate OwnTokens(w: World) {
    forall c, e :: c in w.requests && e in w.requests && w.requests[c].claim.token == w.requests[e].claim.token ==>
        c == e
  }

  /** A request that no longer holds its claim: it was taken over, released, replaced or swept. */
  ghost predicate Fenced(w: World, c: Id) {
    && c in w.requests && w.requests[c].phase != Asking && !Holds(w.table, w.requests[c].claim)
    && (w.requests[c].phase.Answered? && w.requests[c].phase.r.Ok? ==> w.requests[c].phase.r.value.1)
  }

  lemma OthersCannotGiveClaim(
      t: Table, mine: Claimant, other: Claimant, lockedUntil: Time, expiresAt: Time, now: Time, resource: Id)
    requires !Holds(t, mine) && other.token != mine.token
    ensures !Holds(Claim(t, other, lockedUntil, expiresAt, now).0, mine)
    ensures !Holds(Release(t, other), mine) && !Holds(Complete(t, other, resource).0, mine)
  {
  }

  lemma FencedStep(w: World, a: Act, c: Id)
    requires OwnTokens(w) && Fenced(w, c) && Admissible(w, a)
    ensures Fenced(Next(w, a), c) && OwnTokens(Next(w, a))
  {
    if a.Proceed? && a.c in w.requests && a.c != c {
      var q := w.requests[a.c];
      OthersCannotGiveClaim(w.table, w.requests[c].claim, q.claim, a.lockedUntil, a.expiresAt, w.now, q.node);
    }
  }

  /** Once fenced, a request never makes anything, whatever runs in between. */
  lemma {:induction false} FencedForever(w: World, acts: seq<Act>, c: Id)
    requires OwnTokens(w) && Fenced(w, c) && AdmissibleRun(w, acts)
    ensures Fenced(Run(w, acts), c)
    decreases |acts|
  {
    if acts == [] {
    } else {
      FencedStep(w, acts[0], c);
      FencedForever(Next(w, acts[0]), acts[1..], c);
    }
  }

  /** A fenced request's next call changes neither the tree nor the records. */
  lemma FencedChangesNothing(w: World, c: Id, lockedUntil: Time, expiresAt: Time)
    requires Fenced(w, c)
    ensures var x := Advance(w, c, w.requests[c], lockedUntil, expiresAt);
            x.drive == w.drive && x.table == w.table && x.log == w.log
  {
  }
}
