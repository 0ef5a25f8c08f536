/**
  The browser's resumed multipart upload: which listed parts it skips, what it sends, and the
  completion list it finally submits.
 */
module Resume {
  import opened Base
  import opened Storage
  import opened Uploads
  import opened UploadProtocol
  import opened PartGeometry
  import opened PartListing
  import opened WorkerPool

  datatype Handle = Handle(upload: Id, name: string, size: nat, modified: nat)
  datatype LocalFile = LocalFile(name: string, modified: nat, bytes: Bytes)

  datatype Plan = Continue(uploaded: seq<StoredPart>) | Replay(parts: seq<StoredPart>) | Finished(committed: bool)

  function PlanResume(l: Listing, h: Handle): Plan {
    if l.upload != h.upload then Finished(false)
    else if l.status == Committed then Finished(true)
    else if Terminal(l.status) then Finished(false)
    else if l.status == Completing || l.status == ObjectCompleted then Plan.Replay(l.parts)
    else if !l.complete then Continue([])
    else Continue(l.parts)
  }

  /** An open session goes on with what is surely stored, a completing one replays its list, an ended one is over. */
  lemma PlanFollowsTheSession(l: Listing, h: Handle)
    ensures var plan := PlanResume(l, h);
            && (plan.Continue? <==> l.upload == h.upload && l.status in {Created, Uploading})
            && (plan.Replay? <==> l.upload == h.upload && l.status in {Completing, ObjectCompleted})
            && (plan == Finished(true) <==> l.upload == h.upload && l.status == Committed)
            && (plan.Continue? ==> plan.uploaded == if l.complete then l.parts else [])
            && (plan.Replay? ==> plan.parts == l.parts)
  {
  }

  function ToCompletedPart(p: StoredPart): Part {
    Part(p.number, p.etag, None, p.size)
  }

  predicate SameFile(h: Handle, f: LocalFile) {
    f.name == h.name && |f.bytes| == h.size && f.modified == h.modified
  }

  // -------------------------------------------------------------- reuse of stored parts

  /** The checks a listed part must pass to be skipped, the local hash included. */
  predicate Skips(file: Bytes, partSize: nat, p: StoredPart)
    requires partSize > 0
  {
    && 1 <= p.number <= CeilingDiv(|file|, partSize)
    && p.etag != OtherETag("")
    && p.size == ExpectedPartSize(|file|, partSize, p.number - 1)
    && p.reusable
    && (p.number - 1) * partSize <= |file|
    && p.checksum == Some(Sha256(Slice(file, partSize, p.number - 1)))
  }

  /** Some listed part proves that storage holds the file's bytes at `index`. */
  ghost predicate Provided(file: Bytes, partSize: nat, uploaded: seq<StoredPart>, index: nat)
    requires partSize > 0
  {
    exists p :: p in uploaded && p.number == index + 1 && Skips(file, partSize, p)
  }

  /** A skipped part stands for the file's own bytes. */
  lemma SkippedIsOwn(file: Bytes, partSize: nat, p: StoredPart)
    requires partSize > 0 && Proven(p) && Skips(file, partSize, p)
    ensures ToCompletedPart(p) == FilePart(file, partSize, p.number - 1)
  {
    IndexInside(|file|, partSize, p.number - 1);
  }

  /** It is skipped exactly if storage has attested the file's own bytes under its number. */
  lemma SkipsExactlyItsOwn(file: Bytes, partSize: nat, p: StoredPart)
    requires partSize > 0 && Proven(p)
    ensures Skips(file, partSize, p)
       <==> && p.reusable && 1 <= p.number <= CeilingDiv(|file|, partSize)
            && p.etag == SliceETag(file, partSize, p.number - 1)
  {
    if 1 <= p.number <= CeilingDiv(|file|, partSize) { SizesAgree(file, partSize, p.number - 1); }
  }

  method ReuseParts(file: Bytes, partSize: nat, uploaded: seq<StoredPart>, completed: array<Option<Part>>)
    requires partSize > 0 && completed.Length == CeilingDiv(|file|, partSize)
    requires forall i :: 0 <= i < completed.Length ==> completed[i] == None
    requires forall p :: p in uploaded ==> Proven(p)
    modifies completed
    ensures forall i :: 0 <= i < completed.Length ==>
            completed[i] == None || completed[i] == Some(FilePart(file, partSize, i))
    ensures forall i :: 0 <= i < completed.Length ==> (completed[i].Some? <==> Provided(file, partSize, uploaded, i))
  {
    for k := 0 to |uploaded|
      invariant forall i :: 0 <= i < completed.Length ==>
              completed[i] == None || completed[i] == Some(FilePart(file, partSize, i))
      invariant forall i :: 0 <= i < completed.Length ==>
              (completed[i].Some? <==> Provided(file, partSize, uploaded[..k], i))
    {
      var listed := uploaded[k];
      assert uploaded[..k + 1] == uploaded[..k] + [listed];
      forall i: nat {:trigger Provided(file, partSize, uploaded[..k + 1], i)}
        ensures Provided(file, partSize, uploaded[..k + 1], i) <==>
                Provided(file, partSize, uploaded[..k], i) || (listed.number == i + 1 && Skips(file, partSize, listed))
      {
      }
      var index := listed.number - 1;
      if index < 0 || index >= completed.Length { continue; }
      if listed.etag == OtherETag("") { continue; }
      if listed.size != ExpectedPartSize(|file|, partSize, index) { continue; }
      if !listed.reusable { continue; }
      IndexInside(|file|, partSize, index);
      var proof := Sha256(Slice(file, partSize, index));
      if listed.checksum != Some(proof) { continue; }
      SkippedIsOwn(file, partSize, listed);
      completed[index] := Some(ToCompletedPart(listed));
    }
    assert uploaded[..|uploaded|] == uploaded;
  }

  // ------------------------------------------------------------------------ completion

  const COMPLETION_ATTEMPTS := 3

  datatype Answer = Accepts | Refuses | Unclear

  /** One completion request's answer, and what reading the session afterwards says. */
  datatype Exchange = Exchange(answer: Answer, remote: Option<UploadStatus>)

  datatype CompletionEnd = Done | Incomplete | Ended | Denied | Unknown | Closed

  predicate Conclusive(e: Exchange) {
    e.answer != Unclear || (e.remote.Some? && Terminal(e.remote.value))
  }

  function Conclusion(e: Exchange): CompletionEnd {
    if e.answer == Accepts || e.remote == Some(Committed) then Done
    else if e.remote.Some? && Terminal(e.remote.value) then Ended
    else if e.answer == Refuses then Denied
    else Unknown
  }

  /** Within the attempts allowed, the first exchange that says anything says this. */
  predicate Concludes(script: seq<Exchange>, end: CompletionEnd) {
    exists k :: 0 <= k < |script| && k < COMPLETION_ATTEMPTS && Conclusive(script[k]) && Conclusion(script[k]) == end
             && AllUnclear(script[..k])
  }

  predicate AllUnclear(script: seq<Exchange>) {
    forall j :: 0 <= j < |script| ==> !Conclusive(script[j])
  }

  /** Retries only unclear exchanges, always with the same list; a script that ends early is a closed page. */
  method CompleteWithRetries(completed: seq<Option<Part>>, script: seq<Exchange>)
    returns (end: CompletionEnd, submitted: seq<seq<Part>>)
    ensures end == Incomplete <==> exists i :: 0 <= i < |completed| && completed[i] == None
    ensures |submitted| <= COMPLETION_ATTEMPTS && (submitted == [] <==> end == Incomplete)
    ensures forall k :: 0 <= k < |submitted| ==>
              |submitted[k]| == |completed| && forall i :: 0 <= i < |completed| ==>
                  completed[i] == Some(submitted[k][i])
    ensures forall x :: x in {Done, Ended, Denied} ==> (end == x <==> end != Incomplete && Concludes(script, x))
    ensures end == Unknown <==> end != Incomplete && |script| >= COMPLETION_ATTEMPTS
                                && AllUnclear(script[..COMPLETION_ATTEMPTS])
    ensures end == Closed <==> end != Incomplete && |script| < COMPLETION_ATTEMPTS && AllUnclear(script)
    ensures forall k :: 0 <= k < |submitted| - 1 ==> k < |script| && !Conclusive(script[k])
  {
    submitted := [];
    var parts: seq<Part> := [];
    for i := 0 to |completed|
      invariant |parts| == i && forall j :: 0 <= j < i ==> completed[j] == Some(parts[j])
    {
      if completed[i] == None { return Incomplete, []; }
      parts := parts + [completed[i].value];
    }
    var attempt := 0;
    while attempt < COMPLETION_ATTEMPTS
      invariant 0 <= attempt <= COMPLETION_ATTEMPTS && attempt <= |script| && |submitted| == attempt
      invariant forall k :: 0 <= k < |submitted| ==> submitted[k] == parts
      invariant forall j :: 0 <= j < attempt ==> !Conclusive(script[j])
    {
      if attempt == |script| { return Closed, submitted + [parts]; }
      submitted := submitted + [parts];
      var e := script[attempt];
      assert Conclusive(e) ==> Concludes(script, Conclusion(e)) by { assert AllUnclear(script[..attempt]); }
      if e.answer == Accepts { return Done, submitted; }
      if e.remote == Some(Committed) { return Done, submitted; }
      if e.remote.Some? && Terminal(e.remote.value) { return Ended, submitted; }
      if e.answer == Refuses { return Denied, submitted; }
      attempt := attempt + 1;
    }
    return Unknown, submitted;
  }

  // --------------------------------------------------------------------- resumeMultipart

  datatype Why =
    | WrongFile | ListingFailed | SessionOver | BadGeometry | UserCancelled | PartFailed | PageClosed
    | CompletionFailed(end: CompletionEnd)
  datatype Outcome = AlreadyCommitted | Resumed(uploaded: nat, total: nat) | Threw(why: Why)

  /** The only list a resume with this listing may submit; None when it submits nothing. */
  function Submission(l: Listing, h: Handle, f: LocalFile): Option<seq<Part>> {
    match PlanResume(l, h)
    case Finished(_) => None
    case Replay(parts) => Some(seq(|parts|, i requires 0 <= i < |parts| => ToCompletedPart(parts[i])))
    case Continue(_) =>
      if l.partSize == 0 || PartCount(|f.bytes|, l.partSize) == None then None
      else Some(FileParts(f.bytes, l.partSize))
  }

  /** The parts no listed entry proves, which are the ones to be transmitted. */
  ghost function Unproven(file: Bytes, partSize: nat, uploaded: seq<StoredPart>): set<nat>
    requires partSize > 0
  {
    set i: nat | i < CeilingDiv(|file|, partSize) && !Provided(file, partSize, uploaded, i)
  }

  lemma {:induction false} IncreasingCounts(s: seq<nat>, all: set<nat>)
    requires forall j, k :: 0 <= j < k < |s| ==> s[j] < s[k]
    requires forall x :: x in all <==> x in s
    ensures |all| == |s|
  {
    if s == [] {
      assert all == {};
    } else {
      var last := |s| - 1;
      assert s == s[..last] + [s[last]] && s[last] in s;
      IncreasingCounts(s[..last], all - {s[last]});
    }
  }

  /** What a listing leaves to be sent: the proven entries are in place. */
  ghost function Reused(file: Bytes, partSize: nat, uploaded: seq<StoredPart>): (r: seq<Option<Part>>)
    requires partSize > 0
  {
    seq(CeilingDiv(|file|, partSize),
        (i: nat) => if Provided(file, partSize, uploaded, i) then Some(FilePart(file, partSize, i)) else None)
  }

  /** The pool of a resume or of a first upload, before its first turn. */
  ghost function PoolBefore(
      file: Bytes, partSize: nat, uploaded: seq<StoredPart>, concurrency: int, cancelled: bool): View
    requires partSize > 0
  {
    Fresh(file, partSize, Reused(file, partSize, uploaded), concurrency, cancelled)
  }

  /** How that pool ends under a schedule. */
  ghost function SendingEnds(
      file: Bytes, partSize: nat, uploaded: seq<StoredPart>, concurrency: int, cancelled: bool,
      schedule: seq<Event>): PoolEnd
    requires partSize > 0
  {
    EndOf(Reacts(PoolBefore(file, partSize, uploaded, concurrency, cancelled), schedule))
  }

  /** Sends what is missing and enters it in the file's completion list; `sent` counts the parts transmitted. */
  method FillParts(
      file: Bytes, partSize: nat, uploaded: seq<StoredPart>, concurrency: int, cancelled: bool, schedule: seq<Event>)
    returns (end: PoolEnd, completed: seq<Option<Part>>, sent: nat)
    requires partSize > 0 && forall p :: p in uploaded ==> Proven(p)
    ensures end == Filled ==> |completed| == CeilingDiv(|file|, partSize) && forall i :: 0 <= i < |completed| ==>
            completed[i] == Some(FilePart(file, partSize, i))
    ensures sent == |Unproven(file, partSize, uploaded)| && sent <= CeilingDiv(|file|, partSize)
    ensures end == SendingEnds(file, partSize, uploaded, concurrency, cancelled, schedule)
  {
    var slots := new Option<Part>[CeilingDiv(|file|, partSize)](_ => None);
    ReuseParts(file, partSize, uploaded, slots);
    assert slots[..] == Reused(file, partSize, uploaded);
    var missing := Missing(slots[..]);
    sent := |missing|;
    IncreasingCounts(missing, Unproven(file, partSize, uploaded));
    var pool := new Pool(file, partSize, slots, concurrency, cancelled);
    end := pool.Run(schedule);
    completed := slots[..];
  }

  lemma FilledListIsTheFile(file: Bytes, partSize: nat, completed: seq<Option<Part>>, submitted: seq<seq<Part>>)
    requires partSize > 0 && |completed| == CeilingDiv(|file|, partSize)
    requires forall i :: 0 <= i < |completed| ==> completed[i] == Some(FilePart(file, partSize, i))
    requires forall k :: 0 <= k < |submitted| ==> |submitted[k]| == |completed| && forall i :: 0 <= i < |completed| ==>
            completed[i] == Some(submitted[k][i])
    ensures forall k :: 0 <= k < |submitted| ==> submitted[k] == FileParts(file, partSize)
  {
    forall k | 0 <= k < |submitted| ensures submitted[k] == FileParts(file, partSize) {
      forall i | 0 <= i < |completed| ensures submitted[k][i] == FileParts(file, partSize)[i] {
        assert completed[i] == Some(submitted[k][i]);
      }
    }
  }

  /** Sends what is missing and requests completion if, and only if, that has filled the list. */
  method SendAndComplete(
      file: Bytes, partSize: nat, uploaded: seq<StoredPart>, concurrency: int, cancelled: bool, schedule: seq<Event>,
          script: seq<Exchange>)
    returns (filled: PoolEnd, end: CompletionEnd, submitted: seq<seq<Part>>, sent: nat)
    requires partSize > 0 && forall p :: p in uploaded ==> Proven(p)
    ensures filled == SendingEnds(file, partSize, uploaded, concurrency, cancelled, schedule)
    ensures submitted != [] <==> filled == Filled
    ensures |submitted| <= COMPLETION_ATTEMPTS
    ensures forall k :: 0 <= k < |submitted| ==> submitted[k] == FileParts(file, partSize)
    ensures end == Done <==> filled == Filled && Concludes(script, Done)
    ensures sent == |Unproven(file, partSize, uploaded)| && sent <= CeilingDiv(|file|, partSize)
  {
    var completed;
    filled, completed, sent := FillParts(file, partSize, uploaded, concurrency, cancelled, schedule);
    if filled != Filled { return filled, Incomplete, [], sent; }
    end, submitted := CompleteWithRetries(completed, script);
    FilledListIsTheFile(file, partSize, completed, submitted);
  }

  /** The listing asks for parts of this file, and its part size fits. */
  predicate ToSend(h: Handle, f: LocalFile, listing: Result<Listing>) {
    && SameFile(h, f) && listing.Ok? && PlanResume(listing.value, h).Continue?
    && listing.value.partSize > 0 && PartCount(|f.bytes|, listing.value.partSize).Some?
  }

  predicate ToReplay(h: Handle, f: LocalFile, listing: Result<Listing>) {
    SameFile(h, f) && listing.Ok? && PlanResume(listing.value, h).Replay?
  }

  /** How the pool of such a resume ends. */
  ghost function ResumeEnds(
      h: Handle, f: LocalFile, l: Listing, concurrency: int, cancelled: bool, schedule: seq<Event>): PoolEnd
    requires ToSend(h, f, Ok(l))
  {
    SendingEnds(f.bytes, l.partSize, PlanResume(l, h).uploaded, concurrency, cancelled, schedule)
  }

  /**
    `cancelled` says that the user cancelled before the first part was sent; `schedule` and
    `script` are what the network answers. `aborts` says that the multipart was given up.
   */
  method ResumeMultipart(
      h: Handle, f: LocalFile, listing: Result<Listing>, concurrency: int, cancelled: bool, pause: bool,
          schedule: seq<Event>, script: seq<Exchange>)
    returns (outcome: Outcome, submitted: seq<seq<Part>>, aborts: bool)
    requires listing.Ok? ==> forall p :: p in listing.value.parts ==> Proven(p)
    ensures outcome.Resumed? <==>
            && ToSend(h, f, listing) && ResumeEnds(h, f, listing.value, concurrency, cancelled, schedule) == Filled
            && Concludes(script, Done)
    ensures outcome == AlreadyCommitted <==>
            || (ToReplay(h, f, listing) && Concludes(script, Done))
            || (SameFile(h, f) && listing.Ok? && PlanResume(listing.value, h) == Finished(true))
    ensures submitted != [] <==>
            || ToReplay(h, f, listing)
            || (ToSend(h, f, listing) && ResumeEnds(h, f, listing.value, concurrency, cancelled, schedule) == Filled)
    ensures outcome == Threw(UserCancelled) <==>
            && ToSend(h, f, listing)
            && ResumeEnds(h, f, listing.value, concurrency, cancelled, schedule) == PoolEnd.Failed(Cancelled)
    ensures outcome == Threw(PartFailed) <==>
            && ToSend(h, f, listing)
            && ResumeEnds(h, f, listing.value, concurrency, cancelled, schedule) == PoolEnd.Failed(Broken)
    ensures |submitted| <= COMPLETION_ATTEMPTS && forall k :: 0 <= k < |submitted| ==>
            Submission(listing.value, h, f) == Some(submitted[k])
    ensures outcome.Resumed? ==> outcome.uploaded <= outcome.total == |submitted[0]|
    ensures outcome.Resumed? ==>
            outcome.uploaded == |Unproven(f.bytes, listing.value.partSize, PlanResume(listing.value, h).uploaded)|
    ensures aborts <==> !pause && outcome == Threw(UserCancelled)
  {
    submitted, aborts := [], false;
    if !SameFile(h, f) { return Threw(WrongFile), [], false; }
    if listing.Err? { return Threw(ListingFailed), [], false; }
    var l := listing.value;
    match PlanResume(l, h)
    case Finished(committed) =>
      return if committed then AlreadyCommitted else Threw(SessionOver), [], false;
    case Replay(parts) =>
      var list := seq(|parts|, i requires 0 <= i < |parts| => Some(ToCompletedPart(parts[i])));
      var end;
      end, submitted := CompleteWithRetries(list, script);
      forall k | 0 <= k < |submitted| ensures Submission(l, h, f) == Some(submitted[k]) {
        assert Submission(l, h, f).value == submitted[k];
      }
      return if end == Done then AlreadyCommitted else Threw(CompletionFailed(end)), submitted, false;
    case Continue(uploaded) =>
      if l.partSize < 1 || PartCount(|f.bytes|, l.partSize) == None { return Threw(BadGeometry), [], false; }
      var filled, end, sent;
      filled, end, submitted, sent :=
        SendAndComplete(f.bytes, l.partSize, uploaded, concurrency, cancelled, schedule, script);
      match filled
      case Unfinished => return Threw(PageClosed), [], false;
      case Failed(Cancelled) => return Threw(UserCancelled), [], !pause;
      case Failed(Broken) => return Threw(PartFailed), [], false;
      case Filled =>
        var total := CeilingDiv(|f.bytes|, l.partSize);
        return if end == Done then Resumed(sent, total) else Threw(CompletionFailed(end)), submitted, false;
  }

  predicate Fits(f: LocalFile, session: Result<nat>) {
    session.Ok? && session.value > 0 && PartCount(|f.bytes|, session.value).Some?
  }

  /** A first upload: the session's part size is given, nothing is stored yet. */
  method UploadMultipart(
      f: LocalFile, session: Result<nat>, concurrency: int, cancelled: bool, pause: bool, schedule: seq<Event>,
          script: seq<Exchange>)
    returns (why: Option<Why>, submitted: seq<seq<Part>>, aborts: bool)
    ensures submitted != [] <==>
            Fits(f, session) && SendingEnds(f.bytes, session.value, [], concurrency, cancelled, schedule) == Filled
    ensures |submitted| <= COMPLETION_ATTEMPTS
    ensures forall k :: 0 <= k < |submitted| ==> submitted[k] == FileParts(f.bytes, session.value)
    ensures why == None <==> submitted != [] && Concludes(script, Done)
    ensures why == Some(UserCancelled) <==>
            && Fits(f, session)
            && SendingEnds(f.bytes, session.value, [], concurrency, cancelled, schedule) == PoolEnd.Failed(Cancelled)
    ensures why == Some(PartFailed) <==>
            && Fits(f, session)
            && SendingEnds(f.bytes, session.value, [], concurrency, cancelled, schedule) == PoolEnd.Failed(Broken)
    ensures aborts <==> why in {Some(BadGeometry), Some(PartFailed)} || (why == Some(UserCancelled) && !pause)
  {
    submitted := [];
    if session.Err? { return Some(ListingFailed), [], false; }
    var partSize := session.value;
    if partSize < 1 || PartCount(|f.bytes|, partSize) == None { return Some(BadGeometry), [], true; }
    var filled, end, sent;
    filled, end, submitted, sent := SendAndComplete(f.bytes, partSize, [], concurrency, cancelled, schedule, script);
    match filled
    case Unfinished => return Some(PageClosed), [], false;
    case Failed(Cancelled) => return Some(UserCancelled), [], !pause;
    case Failed(Broken) => return Some(PartFailed), [], true;
    case Filled => return if end == Done then None else Some(CompletionFailed(end)), submitted, false;
  }

  /** An upload nobody cancels, whose replies are good and whose workers keep getting turns, sends all its parts. */
  lemma GoodNetworkFills(
    file: Bytes, partSize: nat, uploaded: seq<StoredPart>, concurrency: int, rounds: seq<seq<Event>>)
    requires partSize > 0 && AllAccepted(Flat(rounds))
    requires var v := PoolBefore(file, partSize, uploaded, concurrency, false);
             AreRounds(rounds, |v.workers|) && |rounds| >= Work(v)
    ensures SendingEnds(file, partSize, uploaded, concurrency, false, Flat(rounds)) == Filled
  {
    FreshInv(file, partSize, Reused(file, partSize, uploaded), concurrency, false);
    AcceptedPoolFills(PoolBefore(file, partSize, uploaded, concurrency, false), rounds);
  }

  // -------------------------------------------------------- which file the list stands for

  /** Can a resume of a session in this status be used with a listing, handle and file? */
  predicate Usable(status: UploadStatus, l: Listing, h: Handle, f: LocalFile) {
    l.status == status && SameFile(h, f) && (forall p :: p in l.parts ==> Proven(p)) && Submission(l, h, f).Some?
  }

  /**
    A resume submits the re-selected file, whatever was listed, exactly when completion has not
    yet been requested. A session that is already completing replays the list the server froze,
    which may stand for another file of the same name, size and date.
   */
  lemma ResumeKeepsToTheFile(status: UploadStatus)
    ensures status !in {Completing, ObjectCompleted}
       <==> forall l, h, f {:trigger Usable(status, l, h, f)} :: Usable(status, l, h, f) ==>
           Named(Submission(l, h, f).value) == f.bytes
  {
    if status in {Completing, ObjectCompleted} {
      var l, h, f := ForeignReplay(status);
      assert Usable(status, l, h, f);
    } else {
      forall l, h, f {:trigger Usable(status, l, h, f)} | Usable(status, l, h, f)
          ensures Named(Submission(l, h, f).value) == f.bytes {
        FilePartsNameTheFile(f.bytes, l.partSize);
      }
    }
  }

  /** Part 1 of a one-byte file, frozen; re-selected is another one-byte file of that name and date. */
  lemma ForeignReplay(status: UploadStatus) returns (l: Listing, h: Handle, f: LocalFile)
    requires status in {Completing, ObjectCompleted}
    ensures Usable(status, l, h, f) && Named(Submission(l, h, f).value) != f.bytes
  {
    var frozen := Part(1, ETagOf([0]), None, 1);
    l := Listing(1, status, 8, [Frozen(frozen)], true);
    h := Handle(1, "report", 1, 7);
    f := LocalFile("report", 7, [1]);
    var list := Submission(l, h, f).value;
    assert list == [frozen];
    assert list[..0] == [];
    assert Named(list) == [0];
  }
}
