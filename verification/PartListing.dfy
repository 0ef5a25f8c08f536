/**
  ListUploadParts: what the control plane tells a resuming client about the parts storage
  holds, and which of them it declares reusable.
 */
module PartListing {
  import opened Base
  import Sorting
  import opened Storage
  import opened Uploads
  import opened UploadProtocol
  import opened PartGeometry

  /** `checksum` is None when storage reports none or one that is not a valid SHA-256. */
  datatype StoredPart = StoredPart(number: int, etag: ETag, size: int, checksum: Option<Sha>, attested: bool,
      reusable: bool)

  datatype Listing = Listing(upload: Id, status: UploadStatus, partSize: nat, parts: seq<StoredPart>, complete: bool)

  /** A checksum storage attests names the same bytes as the part's ETag. */
  predicate Honest(p: StoredPart) {
    p.attested && p.checksum.Some? ==>
        p.etag == ETagOf(p.checksum.value.content) && p.size == |p.checksum.value.content|
  }

  /** The client-side view: reuse is declared only for bytes named by the ETag. */
  predicate Proven(p: StoredPart) {
    p.reusable ==>
      && p.checksum.Some?
      && p.etag == ETagOf(p.checksum.value.content) && p.size == |p.checksum.value.content|
  }

  predicate ByNumber(p: StoredPart, q: StoredPart) {
    p.number < q.number
  }

  predicate NumberedUpwards(ps: seq<StoredPart>) {
    Sorting.Ordered(ByNumber, ps)
  }

  // ------------------------------------------------------------ ListParts of storage

  function Reported(number: nat, data: Bytes): StoredPart {
    StoredPart(number, ETagOf(data), |data|, Some(Sha256(data)), true, false)
  }

  /** One entry per stored part, in order of part number, each describing the stored bytes. */
  method ListParts(s: Store, key: Id, id: Id) returns (r: Result<seq<StoredPart>>)
    ensures r.Ok? <==> id in s.uploads && s.uploads[id].key == key
    ensures r.Err? ==> r.code == NotFound
    ensures r.Ok? ==>
              && NumberedUpwards(r.value)
              && (forall p :: p in r.value <==>
                   p.number in s.uploads[id].parts && p == Reported(p.number, s.uploads[id].parts[p.number]))
  {
    if id !in s.uploads || s.uploads[id].key != key { return Err(NotFound); }
    var stored := s.uploads[id].parts;
    var todo := stored.Keys;
    var parts: seq<StoredPart> := [];
    while todo != {}
      invariant todo <= stored.Keys
      invariant NumberedUpwards(parts)
      invariant forall p :: p in parts <==>
              p.number in stored && p.number !in todo && p == Reported(p.number, stored[p.number])
      decreases todo
    {
      var number :| number in todo;
      var entry := Reported(number, stored[number]);
      Sorting.InsertKeepsOrdered(ByNumber, entry, parts);
      parts := Sorting.Insert(ByNumber, entry, parts);
      todo := todo - {number};
    }
    return Ok(parts);
  }

  // ------------------------------------------------------------- reusableStoredParts

  predicate Wellformed(p: StoredPart) {
    1 <= p.number <= MAX_PARTS && p.etag != OtherETag("")
  }

  /** The well-formed entries storage returned for one part number. */
  function Candidates(stored: seq<StoredPart>, number: int): (r: seq<StoredPart>)
    ensures forall p :: p in r <==> p in stored && Wellformed(p) && p.number == number
  {
    if stored == [] then []
    else
      var last := stored[|stored| - 1];
      assert stored == stored[..|stored| - 1] + [last];
      var before := Candidates(stored[..|stored| - 1], number);
      if Wellformed(last) && last.number == number then before + [last] else before
  }

  /** May the client skip this part? */
  predicate MayReuse(s: Session, number: int, candidates: seq<StoredPart>)
    requires candidates != []
  {
    && |candidates| == 1
    && candidates[0].size == SignedPartSize(s.expectedSize, s.partSize, number)
    && candidates[0].attested && candidates[0].checksum.Some?
  }

  /** The listing entry for one part number. */
  predicate Entry(stored: seq<StoredPart>, s: Session, p: StoredPart) {
    var candidates := Candidates(stored, p.number);
    candidates != [] && p == candidates[0].(reusable := MayReuse(s, p.number, candidates))
  }

  method GroupByNumber(stored: seq<StoredPart>) returns (byPart: map<nat, seq<StoredPart>>)
    ensures forall n: nat :: n in byPart <==> Candidates(stored, n) != []
    ensures forall n: nat :: n in byPart ==> byPart[n] == Candidates(stored, n)
  {
    byPart := map[];
    for k := 0 to |stored|
      invariant forall n: nat :: n in byPart <==> Candidates(stored[..k], n) != []
      invariant forall n: nat :: n in byPart ==> byPart[n] == Candidates(stored[..k], n)
    {
      var part := stored[k];
      assert stored[..k + 1][..k] == stored[..k];
      if Wellformed(part) {
        var sofar := if part.number in byPart then byPart[part.number] else [];
        byPart := byPart[part.number := sofar + [part]];
      }
    }
    assert stored[..|stored|] == stored;
  }

  method ReusableStoredParts(stored: seq<StoredPart>, s: Session) returns (parts: seq<StoredPart>)
    ensures NumberedUpwards(parts)
    ensures forall p :: p in parts <==> Entry(stored, s, p)
  {
    var byPart := GroupByNumber(stored);
    var todo := byPart.Keys;
    parts := [];
    while todo != {}
      invariant todo <= byPart.Keys
      invariant NumberedUpwards(parts)
      invariant forall p :: p in parts <==> p.number !in todo && Entry(stored, s, p)
      decreases todo
    {
      var number :| number in todo;
      var candidates := byPart[number];
      assert candidates[0] in candidates;
      var entry := candidates[0].(reusable := MayReuse(s, number, candidates));
      Sorting.InsertKeepsOrdered(ByNumber, entry, parts);
      parts := Sorting.Insert(ByNumber, entry, parts);
      todo := todo - {number};
    }
  }

  /** Listing storage that attests honestly, the server only vouches for proven parts of the right size. */
  lemma ReuseIsProven(stored: seq<StoredPart>, s: Session, p: StoredPart)
    requires forall q :: q in stored ==> Honest(q)
    requires Entry(stored, s, p) && p.reusable
    ensures Proven(p) && p.size == SignedPartSize(s.expectedSize, s.partSize, p.number)
    ensures forall q :: q in stored && Wellformed(q) && q.number == p.number ==> q == p.(reusable := q.reusable)
  {
    var candidates := Candidates(stored, p.number);
    assert candidates[0] in candidates;
    forall q | q in stored && Wellformed(q) && q.number == p.number ensures q == candidates[0] {
      assert q in candidates;
    }
  }

  // ----------------------------------------------------------------- ListUploadParts

  function Frozen(p: Part): StoredPart {
    StoredPart(p.number, p.etag, p.size, None, false, false)
  }

  /** What the listing says of storage: `full` is everything, of which the first `bound` entries are answered. */
  ghost predicate ListsFirst(parts: seq<StoredPart>, complete: bool, stored: seq<StoredPart>, s: Session, bound: nat) {
    exists full :: EntriesInOrder(full, stored, s) && complete == (|full| <= bound) && parts == if complete then full
        else full[..bound]
  }

  ghost predicate EntriesInOrder(full: seq<StoredPart>, stored: seq<StoredPart>, s: Session) {
    NumberedUpwards(full) && forall p :: p in full <==> Entry(stored, s, p)
  }

  /**
    An elapsed session is reported as expired, with nothing and completely; a recorded completion list
    is the complete answer; a terminal session has nothing to offer; everything else is asked of storage.
   */
  method ListUploadParts(
      u: Id, s: Session, recorded: seq<Part>, stored: Result<seq<StoredPart>>, limit: nat, now: Time)
          returns (r: Result<Listing>)
    ensures var expired := now >= s.expiresAt && !Terminal(s.status);
            var asked := !expired && recorded == [] && !Terminal(s.status);
            && (r.Err? <==> asked && stored.Err?)
            && (r.Err? ==> r.code == if stored.code == NotFound then InvalidState else stored.code)
            && (r.Ok? ==>
                  && r.value.upload == u && r.value.partSize == s.partSize
                  && r.value.status == (if expired then Expired else s.status)
                  && (expired ==> r.value.parts == [] && r.value.complete)
                  && (!expired && recorded != [] ==>
                        && r.value.parts == seq(|recorded|, i requires 0 <= i < |recorded| => Frozen(recorded[i]))
                        && r.value.complete)
                  && (!expired && recorded == [] && Terminal(s.status) ==> r.value.parts == [] && !r.value.complete)
                  && (asked ==>
                       ListsFirst(r.value.parts, r.value.complete, stored.value, s, if limit == 0
                           || limit > MAX_PARTS then MAX_PARTS else limit)))
  {
    var bound := if limit == 0 || limit > MAX_PARTS then MAX_PARTS else limit;
    if now >= s.expiresAt && !Terminal(s.status) {
      return Ok(Listing(u, Expired, s.partSize, [], true));
    }
    if recorded != [] {
      var parts: seq<StoredPart> := [];
      for i := 0 to |recorded|
        invariant |parts| == i && forall j :: 0 <= j < i ==> parts[j] == Frozen(recorded[j])
      {
        parts := parts + [Frozen(recorded[i])];
      }
      return Ok(Listing(u, s.status, s.partSize, parts, true));
    }
    if Terminal(s.status) {
      return Ok(Listing(u, s.status, s.partSize, [], false));
    }
    if stored.Err? {
      return Err(if stored.code == NotFound then InvalidState else stored.code);
    }
    var parts := ReusableStoredParts(stored.value, s);
    assert EntriesInOrder(parts, stored.value, s);
    var complete := |parts| <= bound;
    return Ok(Listing(u, s.status, s.partSize, if complete then parts else parts[..bound], complete));
  }
}
