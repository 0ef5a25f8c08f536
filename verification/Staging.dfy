/**
  The staging release controller over an adversarial host and state store.

  Everything outside the controller is a tape of replies. A tape that runs out is a crash:
  the call that would have used the next reply never happens and nothing follows it.
 */
module Staging {

  datatype State =
    | Idle | Prepared | Activating | Verifying | Active | RollingBack | RollbackVerifying | Failed | RecoveryRequired

  datatype Bundle = Bundle(version: string, compose: string, image: string, schema: int)

  datatype Operation = Nothing | Deployment | Reversal

  datatype Record = Record(
    operation: Operation, runId: string, attempt: string, target: string, expectedCurrent: string, previous: string,
    state: State, activeVersion: string, activeCompose: string, activeImage: string, schema: int, evidence: string)

  datatype Request = Request(runId: string, attempt: string, target: string, expectedCurrent: string)

  /** A host reading, or the readings that verification evidence attests. */
  datatype Reading = Reading(version: string, compose: string, image: string, schema: int, healthy: bool)

  datatype Reply =
    /** The call worked; a reading and an evidence digest for the calls that return one. */
    | Answer(reading: Reading, digest: string)
    /** The call failed; a failed Save may or may not have reached the disk. */
    | Failure(durable: bool)

  /** What the outside world saw, host calls together with the record then on disk. */
  datatype Event =
    | Activated(bundle: Bundle, onDisk: Record)
    | RolledBack(bundle: Bundle, onDisk: Record)
    | Read(reading: Reading)
    | Evidenced(reading: Reading, digest: string)
    | Saved(record: Record, ok: bool, durable: bool)

  datatype Error =
    | NoError | Crashed | InvalidRequest | UnknownVersion | Unloadable | NeedsRecovery | Busy
    | InvalidTransition | NotPersisted | WrongRun | HostError

  const IDLE := Record(Nothing, "", "", "", "", "", Idle, "", "", "", 0, "")

  predicate TransitionAllowed(from: State, to: State) {
    match from
    case Idle => to in {Prepared, RollingBack, Failed, RecoveryRequired}
    case Prepared => to in {Activating, Failed, RecoveryRequired}
    case Activating => to in {Verifying, Failed, RollingBack, RecoveryRequired}
    case Verifying => to in {Active, Failed, RollingBack, RecoveryRequired}
    case Active => to in {Prepared, RollingBack, Failed, RecoveryRequired}
    case RollingBack => to in {RollbackVerifying, Failed, RecoveryRequired}
    case RollbackVerifying => to in {Active, RecoveryRequired}
    case Failed => to in {Prepared, RecoveryRequired}
    case RecoveryRequired => false
  }

  predicate InProgress(s: State) {
    s in {Prepared, Activating, Verifying, RollingBack, RollbackVerifying}
  }

  predicate Digits(s: string, max: nat) {
    0 < |s| <= max && forall i :: 0 <= i < |s| ==> '0' <= s[i] <= '9'
  }

  /** A healthy reading that is exactly this bundle. */
  predicate Matches(b: Bundle, r: Reading) {
    r.version == b.version && r.healthy && r.compose == b.compose && r.image == b.image && r.schema == b.schema
  }

  predicate Carries(r: Record, b: Bundle) {
    r.activeVersion == b.version && r.activeCompose == b.compose && r.activeImage == b.image && r.schema == b.schema
  }

  function WithActive(r: Record, b: Bundle): Record {
    r.(state := Active, activeVersion := b.version, activeCompose := b.compose, activeImage := b.image,
        schema := b.schema)
  }

  predicate SameRequest(r: Record, operation: Operation, q: Request) {
    r.runId == q.runId && r.attempt == q.attempt && r.operation == operation && r.target == q.target
  }

  /** A request the controller has already finished with ACTIVE. */
  predicate Replays(r: Record, operation: Operation, q: Request) {
    SameRequest(r, operation, q) && r.state == Active
  }

  /** A request the controller accepts on its own account. */
  predicate WellFormed(bundles: map<string, Bundle>, q: Request) {
    && Digits(q.runId, 20) && Digits(q.attempt, 6) && q.target in bundles
    && (q.expectedCurrent == "" || q.expectedCurrent in bundles)
  }

  /** Which request a record is about. */
  function Subject(r: Record): (Operation, string, string, string, string) {
    (r.operation, r.runId, r.attempt, r.target, r.previous)
  }

  function Announcing(r: Record, operation: Operation, q: Request, current: string): Record {
    r.(operation := operation, runId := q.runId, attempt := q.attempt, target := q.target,
       expectedCurrent := q.expectedCurrent, previous := current)
  }

  // ------------------------------------------------------------------ properties

  /** Host switches happen only under a record on disk that announces them. */
  predicate Announced(e: Event) {
    && (e.Activated? ==> e.onDisk.state == Activating && e.onDisk.target == e.bundle.version)
    && (e.RolledBack? ==> e.onDisk.state == RollingBack && e.bundle.version in {e.onDisk.target, e.onDisk.previous})
  }

  predicate WriteAhead(trace: seq<Event>) {
    forall i :: 0 <= i < |trace| ==> Announced(trace[i])
  }

  predicate Switches(e: Event) {
    e.Activated? || e.RolledBack?
  }

  predicate Attests(e: Event, b: Bundle) {
    (e.Read? && Matches(b, e.reading)) || (e.Evidenced? && Matches(b, e.reading) && e.digest != "")
  }

  /** Some event since `from` attests an approved bundle that `r` carries. */
  ghost predicate Backed(bundles: map<string, Bundle>, trace: seq<Event>, from: nat, r: Record) {
    exists v, j :: v in bundles && from <= j < |trace| && Carries(r, bundles[v]) && Attests(trace[j], bundles[v])
  }

  /** Every ACTIVE record that reached the disk since `from` was backed by then. */
  ghost predicate ActivesBacked(bundles: map<string, Bundle>, trace: seq<Event>, from: nat) {
    forall i :: from <= i < |trace| && trace[i].Saved? && trace[i].durable && trace[i].record.state == Active
      ==> Backed(bundles, trace[..i], from, trace[i].record)
  }

  predicate StoreWorked(trace: seq<Event>, from: nat) {
    forall i :: from <= i < |trace| && trace[i].Saved? ==> trace[i].ok
  }

  /** Since `from` no host switch happened. */
  predicate HandsOff(trace: seq<Event>, from: nat) {
    forall i :: from <= i < |trace| ==> !Switches(trace[i])
  }

  lemma ActivesBackedGrows(bundles: map<string, Bundle>, trace: seq<Event>, e: Event, from: nat)
    requires from <= |trace| && ActivesBacked(bundles, trace, from)
    requires e.Saved? && e.durable && e.record.state == Active ==> Backed(bundles, trace, from, e.record)
    ensures ActivesBacked(bundles, trace + [e], from)
  {
    var t := trace + [e];
    forall i | from <= i < |t| && t[i].Saved? && t[i].durable && t[i].record.state == Active
        ensures Backed(bundles, t[..i], from, t[i].record) {
      assert t[..i] == trace[..i];
      if i == |trace| { assert t[..i] == trace; }
    }
  }

  /** Records backed within each operation are backed within the whole history. */
  lemma ActivesBackedJoin(bundles: map<string, Bundle>, before: seq<Event>, trace: seq<Event>, from: nat)
    requires from <= |before| && before <= trace
    requires ActivesBacked(bundles, before, from) && ActivesBacked(bundles, trace, |before|)
    ensures ActivesBacked(bundles, trace, from)
  {
    forall i | from <= i < |trace| && trace[i].Saved? && trace[i].durable && trace[i].record.state == Active
      ensures Backed(bundles, trace[..i], from, trace[i].record)
    {
      if i < |before| {
        assert trace[..i] == before[..i] && trace[i] == before[i];
      }
    }
  }

  // ------------------------------------------------------------------- replies to come

  function Rest(tape: seq<Reply>): seq<Reply> {
    if tape == [] then [] else tape[1..]
  }

  function Rest2(tape: seq<Reply>): seq<Reply> {
    Rest(Rest(tape))
  }

  predicate Works(tape: seq<Reply>) {
    tape != [] && tape[0].Answer?
  }

  predicate Fails(tape: seq<Reply>) {
    tape != [] && tape[0].Failure?
  }

  /** The next reply is a healthy reading of `b`. */
  predicate Confirms(tape: seq<Reply>, b: Bundle) {
    Works(tape) && Matches(b, tape[0].reading)
  }

  /** The next reply is evidence of `b`, with a digest. */
  predicate Proves(tape: seq<Reply>, b: Bundle) {
    Confirms(tape, b) && tape[0].digest != ""
  }

  /** The next reply is there and is no evidence of `b`. */
  predicate Disproves(tape: seq<Reply>, b: Bundle) {
    tape != [] && !Proves(tape, b)
  }

  /** Proven by evidence, confirmed by a reading, saved. */
  predicate Certifies(tape: seq<Reply>, b: Bundle) {
    Proves(tape, b) && Confirms(Rest(tape), b) && Works(Rest2(tape))
  }

  /** Switched, saved, certified: the replies to a rollback that works. */
  predicate Reverts(tape: seq<Reply>, b: Bundle) {
    Works(tape) && Works(Rest(tape)) && Certifies(Rest2(tape), b)
  }

  /** Switched, saved, proven, saved: the replies to an activation that works. */
  predicate Activates(tape: seq<Reply>, b: Bundle) {
    Works(tape) && Works(Rest(tape)) && Proves(Rest2(tape), b) && Works(Rest(Rest2(tape)))
  }

  /** The switch to `b` fails, or its evidence does. */
  predicate Disappoints(tape: seq<Reply>, b: Bundle) {
    Fails(tape) || (Works(tape) && Works(Rest(tape)) && Disproves(Rest2(tape), b))
  }

  /** The switch to `b` fails, or its evidence does, and the rollback to `previous` works. */
  predicate Compensates(tape: seq<Reply>, b: Bundle, previous: Bundle) {
    || (Fails(tape) && Works(Rest(tape)) && Reverts(Rest2(tape), previous))
    || (&& Works(tape) && Works(Rest(tape)) && Disproves(Rest2(tape), b)
        && Works(Rest(Rest2(tape))) && Reverts(Rest2(Rest2(tape)), previous))
  }

  /** The host still runs what the ACTIVE record says. */
  predicate StillRuns(bundles: map<string, Bundle>, r: Record, tape: seq<Reply>) {
    && r.activeVersion in bundles && Carries(r, bundles[r.activeVersion])
    && Confirms(tape, bundles[r.activeVersion])
  }

  /** The record is loaded and the host still runs what it says: the replies that answer a replay. */
  predicate AnswersReplay(bundles: map<string, Bundle>, r: Record, operation: Operation, q: Request, tape: seq<Reply>) {
    WellFormed(bundles, q) && Replays(r, operation, q) && Works(tape) && StillRuns(bundles, r, Rest(tape))
  }

  /** A new request the record does not stand in the way of. */
  predicate Acceptable(bundles: map<string, Bundle>, r: Record, operation: Operation, q: Request) {
    && WellFormed(bundles, q) && !Replays(r, operation, q) && r.state != RecoveryRequired && !InProgress(r.state)
    && (r.runId == q.runId && r.attempt == q.attempt ==> r.operation == operation && r.target == q.target)
  }

  /** The host answers with a healthy approved bundle, the one the request expects if it says so. */
  predicate RunsAsExpected(bundles: map<string, Bundle>, q: Request, tape: seq<Reply>) {
    && Works(tape) && tape[0].reading.version in bundles && Matches(bundles[tape[0].reading.version], tape[0].reading)
    && q.expectedCurrent in {"", tape[0].reading.version}
  }

  /** The record is loaded, and the host runs another approved bundle: the replies that let a request through. */
  predicate LetsThrough(bundles: map<string, Bundle>, r: Record, operation: Operation, q: Request, tape: seq<Reply>) {
    && Acceptable(bundles, r, operation, q) && Works(tape) && RunsAsExpected(bundles, q, Rest(tape))
    && Rest(tape)[0].reading.version != q.target
  }

  /** The record is loaded, the host already runs the target, and that is saved. */
  predicate FindsActive(bundles: map<string, Bundle>, r: Record, operation: Operation, q: Request, tape: seq<Reply>) {
    && Acceptable(bundles, r, operation, q) && Works(tape) && RunsAsExpected(bundles, q, Rest(tape))
    && Rest(tape)[0].reading.version == q.target && Works(Rest2(tape))
  }

  /** The record is loaded, the host does not run as expected, and that is saved. */
  predicate Alarms(bundles: map<string, Bundle>, r: Record, operation: Operation, q: Request, tape: seq<Reply>) {
    && Acceptable(bundles, r, operation, q) && Works(tape) && Rest(tape) != []
    && !RunsAsExpected(bundles, q, Rest(tape)) && Works(Rest2(tape))
  }

  /** The request is let through and announced by two saves. */
  predicate Prepares(bundles: map<string, Bundle>, r: Record, q: Request, tape: seq<Reply>) {
    LetsThrough(bundles, r, Deployment, q, tape) && Works(Rest2(tape)) && Works(Rest(Rest2(tape)))
  }

  /** The request is let through and announced, and the activation works: the replies to a deployment. */
  predicate Deploys(bundles: map<string, Bundle>, r: Record, q: Request, tape: seq<Reply>) {
    Prepares(bundles, r, q, tape) && Activates(Rest2(Rest2(tape)), bundles[q.target])
  }

  /** The request is let through and announced, the activation does not work, and the rollback does. */
  predicate LeadsToCompensation(bundles: map<string, Bundle>, r: Record, q: Request, tape: seq<Reply>) {
    && Prepares(bundles, r, q, tape)
    && Compensates(Rest2(Rest2(tape)), bundles[q.target], bundles[Rest(tape)[0].reading.version])
  }

  /** The request is let through and announced, and the rollback works. */
  predicate RollsBack(bundles: map<string, Bundle>, r: Record, q: Request, tape: seq<Reply>) {
    && LetsThrough(bundles, r, Reversal, q, tape) && r.state != Failed
    && Works(Rest2(tape)) && Reverts(Rest(Rest2(tape)), bundles[q.target])
  }

  /** The bundle, of this version, is what the host is found to run. */
  predicate Found(bundles: map<string, Bundle>, version: string, tape: seq<Reply>) {
    version in bundles && Confirms(tape, bundles[version])
  }

  /** Where an interrupted record is settled: at its target, or else at what was active before. */
  function SettledAt(bundles: map<string, Bundle>, r: Record, tape: seq<Reply>): string {
    if Found(bundles, r.target, tape) then r.target else r.previous
  }

  /** The host runs one of the two. */
  predicate Recognizes(bundles: map<string, Bundle>, r: Record, tape: seq<Reply>) {
    Found(bundles, r.target, tape) || Found(bundles, r.previous, tape)
  }

  /** One invocation of the controller, with all the environment will answer to it. */
  datatype Invocation =
    | Deploying(request: Request, replies: seq<Reply>)
    | Reversing(request: Request, replies: seq<Reply>)
    | Resuming(runId: string, attempt: string, replies: seq<Reply>)

  class Controller {
    const bundles: map<string, Bundle>
    /** What the environment will answer next. */
    var replies: seq<Reply>
    var onDisk: Record
    ghost var trace: seq<Event>

    constructor (bundles: map<string, Bundle>)
      ensures this.bundles == bundles && onDisk == IDLE && trace == [] && replies == []
    {
      this.bundles := bundles;
      replies, onDisk, trace := [], IDLE, [];
    }

    ghost predicate Valid()
      reads this
    {
      forall v :: v in bundles ==> bundles[v].version == v
    }

    // -------------------------------------------------------- the outside world

    /** None when the process crashed before the call. */
    method Call() returns (reply: Reply, crashed: bool)
      modifies this`replies
      ensures crashed == (old(replies) == [])
      ensures !crashed ==> reply == old(replies)[0] && replies == old(replies)[1..]
      ensures crashed ==> replies == []
    {
      if replies == [] {
        return Failure(false), true;
      }
      reply, crashed := replies[0], false;
      replies := replies[1..];
    }

    method ReadActive(ghost from: nat) returns (reading: Reading, err: Error)
      requires from <= |trace| && ActivesBacked(bundles, trace, from) && WriteAhead(trace)
      modifies this`replies, this`trace
      ensures err in {NoError, HostError, Crashed}
      ensures replies == Rest(old(replies))
      ensures (err == NoError <==> Works(old(replies))) && (err == Crashed <==> old(replies) == [])
      ensures Works(old(replies)) ==> reading == old(replies)[0].reading
      ensures err == NoError ==> trace == old(trace) + [Read(reading)]
      ensures err != NoError ==> trace == old(trace)
      ensures ActivesBacked(bundles, trace, from) && WriteAhead(trace)
    {
      var reply, crashed := Call();
      if crashed { return Reading("", "", "", 0, false), Crashed; }
      if reply.Failure? { return Reading("", "", "", 0, false), HostError; }
      ActivesBackedGrows(bundles, trace, Read(reply.reading), from);
      trace := trace + [Read(reply.reading)];
      return reply.reading, NoError;
    }

    method Verify(ghost from: nat) returns (reading: Reading, digest: string, err: Error)
      requires from <= |trace| && ActivesBacked(bundles, trace, from) && WriteAhead(trace)
      modifies this`replies, this`trace
      ensures err in {NoError, HostError, Crashed}
      ensures replies == Rest(old(replies))
      ensures (err == NoError <==> Works(old(replies))) && (err == Crashed <==> old(replies) == [])
      ensures Works(old(replies)) ==> reading == old(replies)[0].reading && digest == old(replies)[0].digest
      ensures err == NoError ==> trace == old(trace) + [Evidenced(reading, digest)]
      ensures err != NoError ==> trace == old(trace)
      ensures ActivesBacked(bundles, trace, from) && WriteAhead(trace)
    {
      var reply, crashed := Call();
      if crashed { return Reading("", "", "", 0, false), "", Crashed; }
      if reply.Failure? { return Reading("", "", "", 0, false), "", HostError; }
      ActivesBackedGrows(bundles, trace, Evidenced(reply.reading, reply.digest), from);
      trace := trace + [Evidenced(reply.reading, reply.digest)];
      return reply.reading, reply.digest, NoError;
    }

    /** Host.Activate or Host.Rollback; a failed switch may have changed the host. */
    method Switch(bundle: Bundle, activate: bool, ghost from: nat) returns (err: Error)
      requires from <= |trace| && ActivesBacked(bundles, trace, from) && WriteAhead(trace)
      requires Announced(if activate then Activated(bundle, onDisk) else RolledBack(bundle, onDisk))
      modifies this`replies, this`trace
      ensures err in {NoError, HostError, Crashed}
      ensures replies == Rest(old(replies))
      ensures err == if old(replies) == [] then Crashed else if old(replies)[0].Failure? then HostError else NoError
      ensures err == Crashed ==> trace == old(trace)
      ensures err != Crashed ==>
              trace == old(trace) + [if activate then Activated(bundle, onDisk) else RolledBack(bundle, onDisk)]
      ensures ActivesBacked(bundles, trace, from) && WriteAhead(trace)
    {
      var reply, crashed := Call();
      if crashed { return Crashed; }
      ghost var e := if activate then Activated(bundle, onDisk) else RolledBack(bundle, onDisk);
      ActivesBackedGrows(bundles, trace, e, from);
      trace := trace + [e];
      return if reply.Failure? then HostError else NoError;
    }

    /** Store.Save: atomic, but its answer and its durability can disagree. */
    method Persist(record: Record, ghost from: nat) returns (err: Error)
      requires from <= |trace| && ActivesBacked(bundles, trace, from) && WriteAhead(trace)
      requires record.state == Active ==> Backed(bundles, trace, from, record)
      modifies this`replies, this`trace, this`onDisk
      ensures err in {NoError, NotPersisted, Crashed}
      ensures replies == Rest(old(replies)) && (err == NoError <==> Works(old(replies)))
      ensures err == Crashed <==> old(replies) == []
      ensures err == NoError ==> onDisk == record && trace == old(trace) + [Saved(record, true, true)]
      ensures err == Crashed ==> onDisk == old(onDisk) && trace == old(trace)
      ensures err == NotPersisted ==> onDisk in {record, old(onDisk)}
      ensures err == NotPersisted ==> !StoreWorked(trace, |old(trace)|)
      ensures old(trace) <= trace && HandsOff(trace, |old(trace)|)
      ensures ActivesBacked(bundles, trace, from) && WriteAhead(trace)
    {
      var reply, crashed := Call();
      if crashed { return Crashed; }
      var durable := reply.Answer? || reply.durable;
      ghost var e := Saved(record, reply.Answer?, durable);
      ActivesBackedGrows(bundles, trace, e, from);
      trace := trace + [e];
      if durable { onDisk := record; }
      assert trace[|old(trace)|] == e;
      return if reply.Failure? then NotPersisted else NoError;
    }

    // ------------------------------------------------------------ the controller

    method Load() returns (record: Record, err: Error)
      modifies this`replies
      ensures err in {NoError, Unloadable, Crashed} && (err == NoError ==> record == onDisk)
      ensures replies == Rest(old(replies)) && (err == NoError <==> Works(old(replies)))
    {
      var reply, crashed := Call();
      if crashed { return IDLE, Crashed; }
      return onDisk, if reply.Failure? then Unloadable else NoError;
    }

    /** Steps that only append to the trace, keep what is proved of it and never switch the host. */
    twostate predicate Quiet(from: nat)
      reads this
    {
      && old(trace) <= trace && from <= |old(trace)|
      && HandsOff(trace, |old(trace)|)
      && ActivesBacked(bundles, trace, from) && WriteAhead(trace)
    }

    /** A save to the state the record already has does nothing. */
    method Save(record: Record, next: State, ghost from: nat) returns (r: Record, err: Error)
      requires from <= |trace| && ActivesBacked(bundles, trace, from) && WriteAhead(trace)
      requires next == Active && record.state != Active ==> Backed(bundles, trace, from, record.(state := Active))
      modifies this`replies, this`trace, this`onDisk
      ensures Quiet(from)
      ensures err in {NoError, NotPersisted, Crashed, InvalidTransition}
      ensures err == InvalidTransition <==> record.state != next && !TransitionAllowed(record.state, next)
      ensures err != InvalidTransition ==> r == record.(state := next)
      ensures record.state == next || err == InvalidTransition ==>
              onDisk == old(onDisk) && trace == old(trace) && replies == old(replies)
      ensures record.state == next ==> err == NoError
      ensures err == NoError && record.state != next ==> onDisk == r
      ensures record.state != next && TransitionAllowed(record.state, next) ==>
                replies == Rest(old(replies)) && (err == NoError <==> Works(old(replies)))
      ensures onDisk in {record.(state := next), old(onDisk)}
      ensures err == NotPersisted ==> !StoreWorked(trace, |old(trace)|)
    {
      if record.state == next { return record, NoError; }
      if !TransitionAllowed(record.state, next) { return record, InvalidTransition; }
      r := record.(state := next);
      err := Persist(r, from);
    }

    /** A record that is already marked is saved once more, whatever comes of it. */
    method MarkRecovery(record: Record, ghost from: nat) returns (r: Record, err: Error)
      requires from <= |trace| && ActivesBacked(bundles, trace, from) && WriteAhead(trace)
      modifies this`replies, this`trace, this`onDisk
      ensures Quiet(from)
      ensures err in {NeedsRecovery, NotPersisted, Crashed}
      ensures err == NeedsRecovery && record.state != RecoveryRequired ==> onDisk == record.(state := RecoveryRequired)
      ensures onDisk in {record.(state := RecoveryRequired), old(onDisk)}
      ensures err == NotPersisted ==> record.state != RecoveryRequired && !StoreWorked(trace, |old(trace)|)
      ensures err == NeedsRecovery <==>
              if record.state == RecoveryRequired then old(replies) != [] else Works(old(replies))
    {
      if record.state == RecoveryRequired {
        var saved := Persist(record, from);
        return record, if saved == Crashed then Crashed else NeedsRecovery;
      }
      r, err := Save(record, RecoveryRequired, from);
      if err == NoError { err := NeedsRecovery; }
    }

    /** Persists ACTIVE(bundle); the caller holds an event since `from` that attests the bundle. */
    method CommitActive(record: Record, bundle: Bundle, evidence: string, ghost from: nat, ghost seen: nat)
      returns (r: Record, err: Error)
      requires from <= seen < |trace| && ActivesBacked(bundles, trace, from) && WriteAhead(trace)
      requires bundle.version in bundles && bundles[bundle.version] == bundle && Attests(trace[seen], bundle)
      modifies this`replies, this`trace, this`onDisk
      ensures Quiet(from)
      ensures err in {NoError, NotPersisted, Crashed}
      ensures err == NoError <==> Works(old(replies))
      ensures err == NoError ==>
              onDisk == r && r == WithActive(record, bundle).(evidence := evidence) && Backed(bundles, trace, from, r)
      ensures onDisk in {WithActive(record, bundle).(evidence := evidence), old(onDisk)}
      ensures err == NotPersisted ==> !StoreWorked(trace, |old(trace)|)
    {
      var active := WithActive(record, bundle).(evidence := evidence);
      assert Carries(active, bundles[bundle.version]) && Attests(trace[seen], bundles[bundle.version]);
      err := Persist(active, from);
      assert trace[seen] == old(trace[seen]);
      r := if err == NoError then active else active.(state := record.state);
    }

    method ReadValidatedActive(ghost from: nat) returns (reading: Reading, err: Error)
      requires from <= |trace| && ActivesBacked(bundles, trace, from) && WriteAhead(trace)
      modifies this`replies, this`trace
      ensures Quiet(from) && err in {NoError, HostError, Crashed}
      ensures err == NoError ==>
              trace == old(trace) + [Read(reading)] && reading.version in bundles
                  && Matches(bundles[reading.version], reading)
      ensures err == NoError <==>
                && Works(old(replies)) && old(replies)[0].reading.version in bundles
                && Matches(bundles[old(replies)[0].reading.version], old(replies)[0].reading)
      ensures replies == Rest(old(replies)) && (err == NoError ==> reading == old(replies)[0].reading)
      ensures err == Crashed <==> old(replies) == []
    {
      reading, err := ReadActive(from);
      if err == NoError && !(reading.version in bundles
          && Matches(bundles[reading.version], reading)) { err := HostError; }
    }

    /** Replaying a finished request re-reads the host and answers the record if it still holds. */
    method RevalidateActive(record: Record, ghost from: nat) returns (r: Record, err: Error)
      requires Valid() && from <= |trace| && ActivesBacked(bundles, trace, from) && WriteAhead(trace)
      requires record.state == Active && record == onDisk
      modifies this`replies, this`trace, this`onDisk
      ensures Quiet(from)
      ensures err in {NoError, NeedsRecovery, NotPersisted, Crashed}
      ensures err == NoError ==> r == record && onDisk == record && Backed(bundles, trace, from, record)
      ensures onDisk in {record, record.(state := RecoveryRequired)}
      ensures err == NoError <==> StillRuns(bundles, record, old(replies))
      ensures err == NeedsRecovery ==> onDisk.state == RecoveryRequired
    {
      if record.activeVersion !in bundles {
        r, err := MarkRecovery(record, from);
        return;
      }
      var bundle := bundles[record.activeVersion];
      var active, readErr := ReadActive(from);
      if readErr == Crashed { return record, Crashed; }
      if readErr != NoError || !Matches(bundle, active) || !Carries(record, bundle) {
        r, err := MarkRecovery(record, from);
        return;
      }
      assert Attests(trace[|old(trace)|], bundles[record.activeVersion]);
      return record, NoError;
    }

    /** A deploy that found its target already active, healthy and undrifted. */
    method MarkActive(
        record: Record, bundle: Bundle, operation: Operation, request: Request, ghost from: nat, ghost seen: nat)
            returns (r: Record, err: Error)
      requires from <= seen < |trace| && ActivesBacked(bundles, trace, from) && WriteAhead(trace)
      requires bundle.version in bundles && bundles[bundle.version] == bundle && Attests(trace[seen], bundle)
      modifies this`replies, this`trace, this`onDisk
      ensures Quiet(from)
      ensures err in {NoError, NotPersisted, Crashed}
      ensures err == NoError ==>
              onDisk == r && r.state == Active && Carries(r, bundle) && Backed(bundles, trace, from, r)
      ensures onDisk == old(onDisk)
              || (onDisk.state == Active && SameRequest(onDisk, operation, request.(target := bundle.version)))
      ensures err == NoError ==> SameRequest(onDisk, operation, request.(target := bundle.version))
      ensures err == NoError <==> Works(old(replies))
    {
      var marked := record.(operation := operation, runId := request.runId, attempt := request.attempt,
                            target := bundle.version, expectedCurrent := request.expectedCurrent);
      r, err := CommitActive(marked, bundle, record.evidence, from, seen);
    }

    /** The checks a Deploy or Rollback makes before it touches anything; `go` when it may proceed. */
    method Admit(operation: Operation, q: Request, ghost from: nat)
      returns (record: Record, current: string, err: Error, go: bool)
      requires Valid() && from == |trace| && WriteAhead(trace)
      modifies this`replies, this`trace, this`onDisk
      ensures Quiet(from)
      ensures go ==>
              err == NoError && onDisk == old(onDisk) == record && !InProgress(record.state)
                  && record.state != RecoveryRequired
      ensures go ==> q.target in bundles && current in bundles && current != q.target
      ensures !go ==> onDisk == old(onDisk) || onDisk.state in {Active, RecoveryRequired}
      ensures err != InvalidTransition && (!go && err == NoError ==>
                && onDisk.state == Active && Backed(bundles, trace, from, onDisk)
                && if Replays(old(onDisk), operation, q) then onDisk == old(onDisk)
                     else q.target in bundles && Carries(onDisk, bundles[q.target]))
      ensures go ==> !Replays(old(onDisk), operation, q)
      // Exactly the replies that let a request through, and exactly those that answer it at once.
      ensures go <==> LetsThrough(bundles, old(onDisk), operation, q, old(replies))
      ensures go ==> current == Rest(old(replies))[0].reading.version && replies == Rest2(old(replies))
      ensures err == NeedsRecovery ==> onDisk.state == RecoveryRequired
      ensures Alarms(bundles, old(onDisk), operation, q, old(replies)) ==>
              onDisk == old(onDisk).(state := RecoveryRequired)
      ensures !go && err == NoError <==>
                || AnswersReplay(bundles, old(onDisk), operation, q, old(replies))
                || FindsActive(bundles, old(onDisk), operation, q, old(replies))
      ensures err != HostError && (!go && onDisk != old(onDisk) ==>
                onDisk.state == RecoveryRequired || SameRequest(onDisk, operation, q))
      // A request that is neither new nor a replay changes nothing.
      ensures !Acceptable(bundles, old(onDisk), operation, q) && !Replays(old(onDisk), operation, q) ==>
                !go && err != NoError && onDisk == old(onDisk) && trace == old(trace)
      // What it goes on from is what the host answered first.
      ensures go ==>
              |trace| > |old(trace)| && trace[|old(trace)|].Read? && trace[|old(trace)|].reading.version == current
      ensures InProgress(old(onDisk.state)) || old(onDisk.state) == RecoveryRequired ==>
              !go && onDisk == old(onDisk) && trace == old(trace)
    {
      current, go := "", false;
      var proceed;
      record, err, proceed := Screen(operation, q, from);
      if !proceed { return; }
      record, current, err, go := Compare(record, operation, q, from);
    }

    /** What the host runs, against what the request expects and asks for. */
    method Compare(loaded: Record, operation: Operation, q: Request, ghost from: nat)
      returns (record: Record, current: string, err: Error, go: bool)
      requires from == |trace| && WriteAhead(trace) && Valid() && q.target in bundles
      requires onDisk == loaded && loaded.state != RecoveryRequired && !InProgress(loaded.state)
      modifies this`replies, this`trace, this`onDisk
      ensures Quiet(from) && err in {NoError, NotPersisted, NeedsRecovery, Crashed}
      ensures go <==> RunsAsExpected(bundles, q, old(replies)) && old(replies)[0].reading.version != q.target
      ensures go ==> err == NoError && onDisk == loaded == record && replies == Rest(old(replies))
      ensures go ==> current == old(replies)[0].reading.version && trace == old(trace) + [Read(old(replies)[0].reading)]
      ensures !go && err == NoError <==> && RunsAsExpected(bundles, q, old(replies))
                                         && old(replies)[0].reading.version == q.target && Works(Rest(old(replies)))
      ensures !go && err == NoError ==>
              onDisk.state == Active && Carries(onDisk, bundles[q.target]) && Backed(bundles, trace, from, onDisk)
      ensures err == NeedsRecovery ==> onDisk.state == RecoveryRequired
      ensures old(replies) != [] && !RunsAsExpected(bundles, q, old(replies)) && Works(Rest(old(replies))) ==>
              onDisk == loaded.(state := RecoveryRequired)
      ensures onDisk == old(onDisk) || onDisk.state == RecoveryRequired
              || (onDisk.state == Active && SameRequest(onDisk, operation, q))
    {
      record, current, go, err := loaded, "", false, NoError;
      var active, readErr := ReadValidatedActive(from);
      if readErr == Crashed { err := Crashed; return; }
      if readErr != NoError || (q.expectedCurrent != "" && active.version != q.expectedCurrent) {
        record, err := MarkRecovery(record, from);
        return;
      }
      if active.version == q.target {
        record, err := MarkActive(record, bundles[q.target], operation, q, from, from);
        return;
      }
      current, go := active.version, true;
    }

    /** The checks on the request and on the record, before the host is read; a replay ends here. */
    method Screen(operation: Operation, q: Request, ghost from: nat) returns (record: Record, err: Error, proceed: bool)
      requires Valid() && from == |trace| && WriteAhead(trace)
      modifies this`replies, this`trace, this`onDisk
      ensures Quiet(from) && err != InvalidTransition
      ensures proceed ==>
              err == NoError && onDisk == old(onDisk) == record && trace == old(trace) && q.target in bundles
      ensures proceed ==>
              !InProgress(record.state) && record.state != RecoveryRequired && !Replays(record, operation, q)
      ensures !proceed ==> onDisk == old(onDisk) || onDisk.state in {Active, RecoveryRequired}
      ensures !proceed && err == NoError ==>
                onDisk.state == Active && Backed(bundles, trace, from, onDisk) && Replays(old(onDisk), operation, q)
                    && onDisk == old(onDisk)
      ensures InProgress(old(onDisk.state)) || old(onDisk.state) == RecoveryRequired ==>
              !proceed && onDisk == old(onDisk) && trace == old(trace)
      // Exactly the replies that let a request through, and exactly those that answer a replay.
      ensures proceed <==> Acceptable(bundles, old(onDisk), operation, q) && Works(old(replies))
      ensures proceed ==> replies == Rest(old(replies))
      ensures err == NeedsRecovery ==> onDisk.state == RecoveryRequired
      ensures !proceed && err == NoError <==> AnswersReplay(bundles, old(onDisk), operation, q, old(replies))
      ensures err != HostError && (onDisk != old(onDisk) ==> onDisk.state == RecoveryRequired)
      ensures !Acceptable(bundles, old(onDisk), operation, q) && !Replays(old(onDisk), operation, q) ==>
                !proceed && err != NoError && onDisk == old(onDisk) && trace == old(trace)
    {
      record, proceed := IDLE, false;
      if !Digits(q.runId, 20) || !Digits(q.attempt, 6) { err := InvalidRequest; return; }
      if q.target !in bundles
          || (q.expectedCurrent != "" && q.expectedCurrent !in bundles) { err := UnknownVersion; return; }
      record, err := Load();
      if err != NoError { return; }
      if SameRequest(record, operation, q) {
        if record.state == Active { record, err := RevalidateActive(record, from); return; }
        if record.state == RecoveryRequired { err := NeedsRecovery; return; }
        if InProgress(record.state) { err := Busy; return; }
      }
      if record.state == RecoveryRequired { err := NeedsRecovery; return; }
      if record.runId == q.runId && record.attempt == q.attempt
          && (record.operation != operation || record.target != q.target) { err := InvalidRequest; return; }
      if InProgress(record.state) { err := Busy; return; }
      proceed := true;
    }

    /** PREPARED, then ACTIVATING, before the host is touched. */
    method Announce(record: Record, ghost from: nat) returns (r: Record, err: Error)
      requires from <= |trace| && ActivesBacked(bundles, trace, from) && WriteAhead(trace)
      requires record.state !in {Prepared, Activating, RecoveryRequired} && !InProgress(record.state)
      modifies this`replies, this`trace, this`onDisk
      ensures Quiet(from) && err in {NoError, NotPersisted, Crashed}
      ensures err == NoError ==> onDisk == r == record.(state := Activating)
      ensures err == NoError <==> Works(old(replies)) && Works(Rest(old(replies)))
      ensures err == NoError ==> replies == Rest2(old(replies))
      ensures onDisk == old(onDisk) || onDisk.state in {Prepared, Activating}
      ensures err == NotPersisted ==> !StoreWorked(trace, |old(trace)|)
    {
      r, err := Save(record, Prepared, from);
      if err != NoError { return; }
      ghost var mid := trace;
      r, err := Save(r, Activating, from);
    }

    /** Switches the host to the announced bundle and verifies it, or compensates. */
    method Launch(record: Record, bundle: Bundle, previous: Bundle, ghost from: nat) returns (r: Record, err: Error)
      requires from <= |trace| && ActivesBacked(bundles, trace, from) && WriteAhead(trace)
      requires onDisk == record && record.state == Activating && record.target == bundle.version
      requires record.previous == previous.version
      requires bundle.version in bundles && bundles[bundle.version] == bundle && previous.version in bundles
      requires bundles[previous.version] == previous
      modifies this`replies, this`trace, this`onDisk
      ensures old(trace) <= trace && ActivesBacked(bundles, trace, from) && WriteAhead(trace)
      ensures err in {NoError, HostError, NeedsRecovery, NotPersisted, Crashed}
      ensures InProgress(onDisk.state) || onDisk.state in {Active, RecoveryRequired}
      ensures StoreWorked(trace, |old(trace)|) && err != Crashed ==>
                || onDisk.state == RecoveryRequired
                || (onDisk.state == Active && (Carries(onDisk, bundle) || Carries(onDisk, previous)))
      ensures Subject(onDisk) == Subject(record)
      ensures err == NoError ==>
              onDisk.state == Active && Carries(onDisk, bundle) && Backed(bundles, trace, from, onDisk)
      // Exactly the replies to an activation that works, and to one that is compensated.
      ensures err == NoError <==> Activates(old(replies), bundle)
      ensures err == NoError ==> onDisk.evidence == Rest2(old(replies))[0].digest
      ensures err == NeedsRecovery ==> onDisk.state == RecoveryRequired
      ensures err == HostError <==> Compensates(old(replies), bundle, previous)
      ensures err == HostError ==> onDisk.state == Active && Carries(onDisk, previous)
      ensures onDisk.state == Active && !Carries(onDisk, bundle) ==> Disappoints(old(replies), bundle)
      ensures |trace| == |old(trace)| || Switches(trace[|old(trace)|])
      ensures |trace| == |old(trace)| ==> err == Crashed
    {
      r := record;
      err := Switch(bundle, true, from);
      if err == Crashed { return; }
      if err != NoError { r, err := Compensate(r, previous, from); return; }
      r, err := Probe(r, bundle, previous, from);
    }

    /** Verifies the new version; anything but complete evidence of it is compensated. */
    method Probe(record: Record, bundle: Bundle, previous: Bundle, ghost from: nat) returns (r: Record, err: Error)
      requires from <= |trace| && ActivesBacked(bundles, trace, from) && WriteAhead(trace)
      requires onDisk == record && record.state == Activating && record.previous == previous.version
      requires bundle.version in bundles && bundles[bundle.version] == bundle && previous.version in bundles
      requires bundles[previous.version] == previous
      modifies this`replies, this`trace, this`onDisk
      ensures old(trace) <= trace && ActivesBacked(bundles, trace, from) && WriteAhead(trace)
      ensures err in {NoError, HostError, NeedsRecovery, NotPersisted, Crashed}
      ensures (InProgress(onDisk.state) || onDisk.state in {Active, RecoveryRequired})
      ensures Subject(onDisk) == Subject(record)
      ensures StoreWorked(trace, |old(trace)|) && err != Crashed ==>
                onDisk.state == RecoveryRequired
                    || (onDisk.state == Active && (Carries(onDisk, bundle) || Carries(onDisk, previous)))
      ensures err == NoError ==>
              onDisk.state == Active && Carries(onDisk, bundle) && Backed(bundles, trace, from, onDisk)
      ensures err == NeedsRecovery ==> onDisk.state == RecoveryRequired
      ensures err == NoError <==>
              Works(old(replies)) && Proves(Rest(old(replies)), bundle) && Works(Rest2(old(replies)))
      ensures err == NoError ==> onDisk.evidence == Rest(old(replies))[0].digest
      ensures err == HostError <==>
                && Works(old(replies)) && Disproves(Rest(old(replies)), bundle) && Works(Rest2(old(replies)))
                && Reverts(Rest(Rest2(old(replies))), previous)
      ensures err == HostError ==> onDisk.state == Active && Carries(onDisk, previous)
      ensures onDisk.state == Active && !Carries(onDisk, bundle) ==>
              Works(old(replies)) && Disproves(Rest(old(replies)), bundle)
    {
      r, err := Save(record, Verifying, from);
      if err != NoError { return; }
      ghost var seen := |trace|;
      var evidence, digest, verifyErr := Verify(from);
      if verifyErr == Crashed { err := Crashed; return; }
      if verifyErr != NoError || digest == "" || !Matches(bundle, evidence) {
        r, err := Compensate(r, previous, from);
        return;
      }
      r, err := CommitActive(r, bundle, digest, from, seen);
    }

    /** Switches the host back to the announced bundle and verifies it twice. */
    method Revert(record: Record, bundle: Bundle, ghost from: nat) returns (r: Record, err: Error)
      requires from <= |trace| && ActivesBacked(bundles, trace, from) && WriteAhead(trace)
      requires onDisk == record && record.state == RollingBack && bundle.version in {record.target, record.previous}
      requires bundle.version in bundles && bundles[bundle.version] == bundle
      modifies this`replies, this`trace, this`onDisk
      ensures old(trace) <= trace && ActivesBacked(bundles, trace, from) && WriteAhead(trace)
      ensures err in {NoError, NeedsRecovery, NotPersisted, Crashed}
      ensures InProgress(onDisk.state) || onDisk.state in {Active, RecoveryRequired}
      ensures Subject(onDisk) == Subject(record)
      ensures StoreWorked(trace, |old(trace)|) && err != Crashed ==>
                onDisk.state == RecoveryRequired || (onDisk.state == Active && Carries(onDisk, bundle))
      ensures err == NoError <==> Reverts(old(replies), bundle)
      ensures err == NoError ==> onDisk.evidence == Rest2(old(replies))[0].digest
      ensures err == NeedsRecovery ==> onDisk.state == RecoveryRequired
      ensures err == NoError ==>
              onDisk.state == Active && Carries(onDisk, bundle) && Backed(bundles, trace, from, onDisk)
    {
      r := record;
      err := Switch(bundle, false, from);
      if err == Crashed { return; }
      if err != NoError { r, err := MarkRecovery(r, from); return; }
      r, err := Save(r, RollbackVerifying, from);
      if err != NoError { return; }
      r, err := Confirm(r, bundle, from);
    }

    /** Verifies a rollback by evidence and by a reading of its own before it becomes ACTIVE. */
    method Confirm(record: Record, bundle: Bundle, ghost from: nat) returns (r: Record, err: Error)
      requires from <= |trace| && ActivesBacked(bundles, trace, from) && WriteAhead(trace)
      requires onDisk == record && record.state == RollbackVerifying && bundle.version in bundles
      requires bundles[bundle.version] == bundle
      modifies this`replies, this`trace, this`onDisk
      ensures Quiet(from) && err in {NoError, NeedsRecovery, NotPersisted, Crashed}
      ensures (InProgress(onDisk.state) || onDisk.state in {Active, RecoveryRequired})
      ensures Subject(onDisk) == Subject(record)
      ensures StoreWorked(trace, |old(trace)|) && err != Crashed ==>
                onDisk.state == RecoveryRequired || (onDisk.state == Active && Carries(onDisk, bundle))
      ensures err == NoError ==>
              onDisk.state == Active && Carries(onDisk, bundle) && Backed(bundles, trace, from, onDisk)
      ensures err == NoError <==> Certifies(old(replies), bundle)
      ensures err == NoError ==> onDisk.evidence == old(replies)[0].digest
      ensures err == NeedsRecovery ==> onDisk.state == RecoveryRequired
    {
      r := record;
      ghost var seen := |trace|;
      var evidence, digest, verifyErr := Verify(from);
      if verifyErr == Crashed { return r, Crashed; }
      var certified := verifyErr == NoError && digest != "" && Matches(bundle, evidence);
      if certified {
        var actual, readErr := ReadActive(from);
        if readErr == Crashed { return r, Crashed; }
        certified := readErr == NoError && Matches(bundle, actual);
      }
      assert certified <==> Proves(old(replies), bundle) && Confirms(Rest(old(replies)), bundle);
      if !certified { r, err := MarkRecovery(r, from); return; }
      r, err := CommitActive(r, bundle, digest, from, seen);
    }

    /** Rolls the host back to the bundle that was active before; the record on disk is ACTIVATING or VERIFYING. */
    method Compensate(record: Record, previous: Bundle, ghost from: nat) returns (r: Record, err: Error)
      requires from <= |trace| && ActivesBacked(bundles, trace, from) && WriteAhead(trace)
      requires onDisk == record && record.state in {Activating, Verifying} && record.previous == previous.version
      requires previous.version in bundles && bundles[previous.version] == previous
      modifies this`replies, this`trace, this`onDisk
      ensures old(trace) <= trace && ActivesBacked(bundles, trace, from) && WriteAhead(trace)
      ensures err in {HostError, NeedsRecovery, NotPersisted, Crashed}
      ensures (InProgress(onDisk.state) || onDisk.state in {Active, RecoveryRequired})
      ensures Subject(onDisk) == Subject(record)
      ensures StoreWorked(trace, |old(trace)|) && err != Crashed ==>
                onDisk.state == RecoveryRequired || (onDisk.state == Active && Carries(onDisk, previous))
      ensures err == HostError <==> Works(old(replies)) && Reverts(Rest(old(replies)), previous)
      ensures err == NeedsRecovery ==> onDisk.state == RecoveryRequired
      ensures err == HostError ==> onDisk.state == Active && Carries(onDisk, previous)
    {
      r, err := Save(record, RollingBack, from);
      if err != NoError { return; }
      r, err := Revert(r, previous, from);
      if err == NoError { err := HostError; }
    }

    method Deploy(q: Request) returns (record: Record, err: Error)
      requires Valid() && WriteAhead(trace)
      modifies this`replies, this`trace, this`onDisk
      ensures old(trace) <= trace && WriteAhead(trace) && ActivesBacked(bundles, trace, |old(trace)|)
      // An interrupted or unrecoverable record keeps every later Deploy off the host and off the disk.
      ensures InProgress(old(onDisk.state)) || old(onDisk.state) == RecoveryRequired ==>
              onDisk == old(onDisk) && trace == old(trace)
      // From an absent record neither FAILED nor a forbidden transition ever occurs.
      ensures old(onDisk.state) != Failed ==> onDisk.state != Failed && err != InvalidTransition
      // Once the host was switched, the disk says so until ACTIVE or RECOVERY_REQUIRED is on it.
      ensures !HandsOff(trace, |old(trace)|) ==> InProgress(onDisk.state) || onDisk.state in {Active, RecoveryRequired}
      // With a working store and no crash, a Deploy that switched the host ends settled.
      ensures !HandsOff(trace, |old(trace)|) && StoreWorked(trace, |old(trace)|) && err != Crashed ==>
                || onDisk.state == RecoveryRequired
                || (onDisk.state == Active && q.target in bundles && onDisk.previous in bundles
                    && (Carries(onDisk, bundles[q.target]) || Carries(onDisk, bundles[onDisk.previous])))
      // ACTIVE(previous) is the version the host answered when the operation began.
      ensures !HandsOff(trace, |old(trace)|) ==>
              trace[|old(trace)|].Read? && onDisk.previous == trace[|old(trace)|].reading.version
      // Success is ACTIVE, attested during this operation.
      ensures err == NoError ==> onDisk.state == Active && Backed(bundles, trace, |old(trace)|, onDisk)
      // Success is ACTIVE(target), except that a replay answers the record as it stands.
      ensures err == NoError ==>
                if Replays(old(onDisk), Deployment, q) then onDisk == old(onDisk)
                else q.target in bundles && Carries(onDisk, bundles[q.target])
      // It succeeds exactly under these replies: those of a replay, of a target found active, of a deployment.
      ensures err == NoError <==>
                || AnswersReplay(bundles, old(onDisk), Deployment, q, old(replies))
                || FindsActive(bundles, old(onDisk), Deployment, q, old(replies))
                || Deploys(bundles, old(onDisk), q, old(replies))
      // A deployment is recorded with the evidence that proves it.
      ensures Deploys(bundles, old(onDisk), q, old(replies)) ==>
              onDisk.evidence == Rest2(Rest2(Rest2(old(replies))))[0].digest
      // It is compensated exactly under these, and then the version that was active before is active again.
      ensures err == HostError <==> LeadsToCompensation(bundles, old(onDisk), q, old(replies))
      ensures err == HostError ==>
                && !HandsOff(trace, |old(trace)|) && onDisk.state == Active
                && Carries(onDisk, bundles[Rest(old(replies))[0].reading.version])
      // A host that is not as expected is reported and recorded for manual recovery.
      ensures err == NeedsRecovery ==> onDisk.state == RecoveryRequired
      ensures Alarms(bundles, old(onDisk), Deployment, q, old(replies)) ==>
                onDisk == old(onDisk).(state := RecoveryRequired)
      // Another version than the target stays ACTIVE only after the switch or its evidence has failed.
      ensures !HandsOff(trace, |old(trace)|) && onDisk.state == Active ==>
                && q.target in bundles
                && (Carries(onDisk, bundles[q.target]) || Disappoints(Rest2(Rest2(old(replies))), bundles[q.target]))
      // A request that is neither new nor a replay changes nothing.
      ensures !Acceptable(bundles, old(onDisk), Deployment, q) && !Replays(old(onDisk), Deployment, q) ==>
                err != NoError && onDisk == old(onDisk) && trace == old(trace)
      // A compensated Deploy leaves ACTIVE(previous) under its own request, which the same request then replays.
      ensures !HandsOff(trace, |old(trace)|) && onDisk.state == Active ==> Replays(onDisk, Deployment, q)
    {
      ghost var from := |trace|;
      assert ActivesBacked(bundles, trace, from);
      var current, go;
      record, current, err, go := Admit(Deployment, q, from);
      if !go { return; }
      var bundle := bundles[q.target];
      record, err := Announce(Announcing(record, Deployment, q, current), from);
      if err != NoError { return; }
      record, err := Launch(record, bundle, bundles[current], from);
    }

    method Rollback(q: Request) returns (record: Record, err: Error)
      requires Valid() && WriteAhead(trace)
      modifies this`replies, this`trace, this`onDisk
      ensures old(trace) <= trace && WriteAhead(trace) && ActivesBacked(bundles, trace, |old(trace)|)
      ensures InProgress(old(onDisk.state)) || old(onDisk.state) == RecoveryRequired ==>
              onDisk == old(onDisk) && trace == old(trace)
      ensures old(onDisk.state) != Failed ==> onDisk.state != Failed && err != InvalidTransition
      ensures !HandsOff(trace, |old(trace)|) ==> InProgress(onDisk.state) || onDisk.state in {Active, RecoveryRequired}
      ensures !HandsOff(trace, |old(trace)|) && StoreWorked(trace, |old(trace)|) && err != Crashed ==>
                onDisk.state == RecoveryRequired
                    || (onDisk.state == Active && q.target in bundles && Carries(onDisk, bundles[q.target]))
      ensures err == NoError ==> onDisk.state == Active && Backed(bundles, trace, |old(trace)|, onDisk)
      ensures err == NoError ==>
                if Replays(old(onDisk), Reversal, q) then onDisk == old(onDisk)
                else q.target in bundles && Carries(onDisk, bundles[q.target])
      ensures err == NoError <==>
                || AnswersReplay(bundles, old(onDisk), Reversal, q, old(replies))
                || FindsActive(bundles, old(onDisk), Reversal, q, old(replies))
                || RollsBack(bundles, old(onDisk), q, old(replies))
      ensures RollsBack(bundles, old(onDisk), q, old(replies)) ==>
              onDisk.evidence == Rest2(Rest(Rest2(old(replies))))[0].digest
      ensures !HandsOff(trace, |old(trace)|) ==>
                && SameRequest(onDisk, Reversal, q) && trace[|old(trace)|].Read?
                && onDisk.previous == trace[|old(trace)|].reading.version
      ensures err == NeedsRecovery ==> onDisk.state == RecoveryRequired
      ensures Alarms(bundles, old(onDisk), Reversal, q, old(replies)) ==>
              onDisk == old(onDisk).(state := RecoveryRequired)
      ensures !Acceptable(bundles, old(onDisk), Reversal, q) && !Replays(old(onDisk), Reversal, q) ==>
                err != NoError && onDisk == old(onDisk) && trace == old(trace)
    {
      ghost var from := |trace|;
      assert ActivesBacked(bundles, trace, from);
      var current, go;
      record, current, err, go := Admit(Reversal, q, from);
      if !go { return; }
      var bundle := bundles[q.target];
      record, err := Save(Announcing(record, Reversal, q, current), RollingBack, from);
      if err != NoError { return; }
      record, err := Revert(record, bundle, from);
    }

    /** Reconstructs a settled record from the host after an interruption; never switches it. */
    method Resume(runId: string, attempt: string) returns (record: Record, err: Error)
      requires Valid() && WriteAhead(trace)
      modifies this`replies, this`trace, this`onDisk
      ensures Quiet(|old(trace)|)
      ensures old(onDisk.state) == RecoveryRequired ==> onDisk == old(onDisk) && trace == old(trace)
      ensures onDisk == old(onDisk) || onDisk.state in {Active, RecoveryRequired}
      ensures old(onDisk.state) != Failed ==> onDisk.state != Failed && err != InvalidTransition
      // An in-progress record of this run is settled from what the host really runs, target first.
      ensures InProgress(old(onDisk.state)) && err == NoError ==>
                && onDisk.state == Active && Backed(bundles, trace, |old(trace)|, onDisk)
                && onDisk.activeVersion in {old(onDisk.target), old(onDisk.previous)}
      ensures InProgress(old(onDisk.state)) && err == NeedsRecovery && StoreWorked(trace, |old(trace)|) ==>
              onDisk.state == RecoveryRequired
      // It succeeds exactly if the record is of this run and settled, still runs, or is recognized and saved.
      ensures err == NoError <==>
                && Works(old(replies)) && old(onDisk.runId) == runId && old(onDisk.attempt) == attempt
                && match old(onDisk.state)
                   case Active => StillRuns(bundles, old(onDisk), Rest(old(replies)))
                   case Idle => true
                   case RecoveryRequired => true
                   case _ => Recognizes(bundles, old(onDisk), Rest(old(replies))) && Works(Rest2(old(replies)))
      ensures InProgress(old(onDisk.state)) && err == NoError ==>
                Carries(onDisk, bundles[SettledAt(bundles, old(onDisk), Rest(old(replies)))])
      // A host that runs the target or the previous version is never given up.
      ensures InProgress(old(onDisk.state)) && Recognizes(bundles, old(onDisk), Rest(old(replies))) ==>
              onDisk.state != RecoveryRequired
    {
      ghost var from := |trace|;
      assert ActivesBacked(bundles, trace, from);
      record, err := Load();
      if err != NoError { return; }
      if record.runId != runId || record.attempt != attempt { err := WrongRun; return; }
      if record.state == Active { record, err := RevalidateActive(record, from); return; }
      if !InProgress(record.state) && record.state != Failed { return; }
      record, err := Settle(record, from);
    }

    /** Writes down what the host really runs, the target first, or that nobody knows. */
    method Settle(interrupted: Record, ghost from: nat) returns (record: Record, err: Error)
      requires Valid() && from == |trace| && WriteAhead(trace) && onDisk == interrupted
      requires (InProgress(interrupted.state) || interrupted.state == Failed)
      modifies this`replies, this`trace, this`onDisk
      ensures Quiet(from) && err in {NoError, NotPersisted, NeedsRecovery, Crashed}
      ensures onDisk == old(onDisk) || onDisk.state in {Active, RecoveryRequired}
      ensures err == NoError ==>
                onDisk.state == Active && Backed(bundles, trace, from, onDisk)
                    && onDisk.activeVersion in {interrupted.target, interrupted.previous}
      ensures err == NeedsRecovery && StoreWorked(trace, from) ==> onDisk.state == RecoveryRequired
      ensures err == NoError <==> Recognizes(bundles, interrupted, old(replies)) && Works(Rest(old(replies)))
      ensures err == NoError ==> Carries(onDisk, bundles[SettledAt(bundles, interrupted, old(replies))])
      ensures Recognizes(bundles, interrupted, old(replies)) ==> onDisk.state != RecoveryRequired
    {
      record := interrupted;
      var active, readErr := ReadActive(from);
      if readErr == Crashed { err := Crashed; return; }
      var found := if record.target in bundles && Matches(bundles[record.target], active) then record.target
          else record.previous;
      var recognized := readErr == NoError && found in bundles && Matches(bundles[found], active);
      assert recognized <==> Recognizes(bundles, interrupted, old(replies));
      assert recognized ==> found == SettledAt(bundles, interrupted, old(replies));
      if recognized {
        record, err := CommitActive(record, bundles[found], record.evidence, from, from);
        return;
      }
      record := record.(state := RecoveryRequired);
      err := Persist(record, from);
      if err != Crashed { err := NeedsRecovery; }
    }

    /** Any sequence of invocations, each of which may crash anywhere. */
    method Run(todo: seq<Invocation>) returns (errs: seq<Error>)
      requires Valid() && WriteAhead(trace)
      modifies this
      ensures old(trace) <= trace && WriteAhead(trace) && ActivesBacked(bundles, trace, |old(trace)|)
      ensures |errs| == |todo|
      // FAILED and forbidden transitions never occur.
      ensures old(onDisk.state) != Failed ==> onDisk.state != Failed && InvalidTransition !in errs
      // RECOVERY_REQUIRED is absorbing.
      ensures old(onDisk.state) == RecoveryRequired ==> onDisk == old(onDisk) && trace == old(trace)
      // After an interruption nothing touches the host or the disk until a Resume.
      ensures InProgress(old(onDisk.state)) && (forall i :: 0 <= i < |todo| ==> !todo[i].Resuming?) ==>
              onDisk == old(onDisk) && trace == old(trace)
    {
      errs := [];
      for n := 0 to |todo|
        invariant |errs| == n && old(trace) <= trace && WriteAhead(trace) && ActivesBacked(bundles, trace, |old(trace)|)
        invariant old(onDisk.state) != Failed ==> onDisk.state != Failed && InvalidTransition !in errs
        invariant old(onDisk.state) == RecoveryRequired ==> onDisk == old(onDisk) && trace == old(trace)
        invariant InProgress(old(onDisk.state)) && (forall i :: 0 <= i < |todo| ==> !todo[i].Resuming?) ==>
                onDisk == old(onDisk) && trace == old(trace)
      {
        ghost var before := trace;
        var err;
        replies := todo[n].replies;
        match todo[n] {
          case Deploying(q, _) => var _, e := Deploy(q); err := e;
          case Reversing(q, _) => var _, e := Rollback(q); err := e;
          case Resuming(runId, attempt, _) => var _, e := Resume(runId, attempt); err := e;
        }
        errs := errs + [err];
        ActivesBackedJoin(bundles, before, trace, |old(trace)|);
      }
    }
  }
  // ------------------------------------------------------------------- a compensated deploy

  lemma RestOf(reply: Reply, tape: seq<Reply>)
    ensures Rest([reply] + tape) == tape
  {
  }

  /** The same good reply, over and over. */
  function Steady(reply: Reply, n: nat): (tape: seq<Reply>)
    ensures |tape| == n && (n > 0 ==> tape[0] == reply && Rest(tape) == Steady(reply, n - 1))
  {
    if n == 0 then [] else RestOf(reply, Steady(reply, n - 1)); [reply] + Steady(reply, n - 1)
  }

  lemma SteadyReverts(reply: Reply, b: Bundle)
    requires reply.Answer? && Matches(b, reply.reading) && reply.digest != ""
    ensures Reverts(Steady(reply, 5), b)
  {
    assert Rest2(Steady(reply, 5)) == Steady(reply, 3);
  }

  /** Load, read, save twice; activate, in vain; save, roll back, save, verify, read, save. */
  function CompensatingReplies(runs: Reply): seq<Reply> {
    [runs] + ([runs] + ([runs] + ([runs] + ([Failure(false)] + ([runs] + Steady(runs, 5))))))
  }

  lemma ActivatedInVain(one: Bundle, two: Bundle, runs: Reply)
    requires runs.Answer? && Matches(one, runs.reading) && runs.digest != ""
    ensures Compensates([Failure(false)] + ([runs] + Steady(runs, 5)), two, one)
  {
    RestOf(runs, Steady(runs, 5));
    RestOf(Failure(false), [runs] + Steady(runs, 5));
    SteadyReverts(runs, one);
  }

  lemma RestsOf(runs: Reply, tape: seq<Reply>)
    ensures var whole := [runs] + ([runs] + ([runs] + ([runs] + tape)));
            && Rest(whole) == [runs] + ([runs] + ([runs] + tape)) && Rest2(whole) == [runs] + ([runs] + tape)
            && Rest(Rest2(whole)) == [runs] + tape && Rest2(Rest2(whole)) == tape
  {
    RestOf(runs, tape);
    RestOf(runs, [runs] + tape);
    RestOf(runs, [runs] + ([runs] + tape));
    RestOf(runs, [runs] + ([runs] + ([runs] + tape)));
  }

  lemma CompensatingRepliesCompensate(one: Bundle, two: Bundle, runs: Reply, q: Request)
    requires one.version == "1" && two.version == "2" && runs.Answer? && Matches(one, runs.reading) && runs.digest != ""
    requires q == Request("7", "1", "2", "")
    ensures LeadsToCompensation(map["1" := one, "2" := two], IDLE, q, CompensatingReplies(runs))
    ensures Rest(CompensatingReplies(runs)) != [] && Rest(CompensatingReplies(runs))[0] == runs
  {
    ActivatedInVain(one, two, runs);
    RestsOf(runs, [Failure(false)] + ([runs] + Steady(runs, 5)));
  }

  /** The same request once more, to a host that still runs what the record says. */
  method SendAgain(controller: Controller, q: Request, runs: Reply) returns (err: Error)
    requires controller.Valid() && WriteAhead(controller.trace) && WellFormed(controller.bundles, q)
    requires Replays(controller.onDisk, Deployment, q) && runs.Answer?
    requires StillRuns(controller.bundles, controller.onDisk, [runs])
    modifies controller
    ensures err == NoError && controller.onDisk == old(controller.onDisk)
  {
    controller.replies := [runs] + [runs];
    RestOf(runs, [runs]);
    var again;
    again, err := controller.Deploy(q);
  }

  /**
    The input: version 1 runs, the first Deploy of version 2 fails to activate and is rolled back, and
    the same request sent again succeeds, with version 1 still active.
   */
  method CompensatedDeploySucceedsOnReplay() returns (q: Request, first: Error, second: Error, record: Record)
    ensures first == HostError && second == NoError
    ensures record.state == Active && record.target == q.target && record.activeVersion != q.target
  {
    var one, two := Bundle("1", "c1", "i1", 1), Bundle("2", "c2", "i2", 2);
    var controller := new Controller(map["1" := one, "2" := two]);
    var runs := Answer(Reading("1", "c1", "i1", 1, true), "evidence");
    q := Request("7", "1", "2", "");
    controller.replies := CompensatingReplies(runs);
    CompensatingRepliesCompensate(one, two, runs, q);
    var between;
    between, first := controller.Deploy(q);
    second := SendAgain(controller, q, runs);
    return q, first, second, controller.onDisk;
  }
}
