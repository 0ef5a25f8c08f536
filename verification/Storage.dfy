/**
  The memory object storage: multipart uploads under construction and finished objects.
  SHA-256 digests and ETags are free constructors over the content they were computed
  from, that is, injective functions of it.
 */
module Storage {
  import opened Base
  import Sorting

  newtype Byte = b: int | 0 <= b < 256
  type Bytes = seq<Byte>

  datatype Sha = Sha256(content: Bytes)
  /** ETags a client may quote: one storage computed, or any other text. */
  datatype ETag = ETagOf(content: Bytes) | OtherETag(text: string)

  datatype Part = Part(number: int, etag: ETag, checksum: Option<Sha>, size: int)

  datatype Multipart = Multipart(key: Id, declared: Option<Sha>, parts: map<nat, Bytes>)
  datatype Store = Store(uploads: map<Id, Multipart>, objects: map<Id, Bytes>)

  // -------------------------------------------------------- ordering of part lists

  predicate NotAfter(p: Part, q: Part) {
    p.number <= q.number
  }

  function SortParts(ps: seq<Part>): seq<Part> {
    if ps == [] then [] else Sorting.Insert(NotAfter, ps[0], SortParts(ps[1..]))
  }

  predicate StrictlyOrdered(ps: seq<Part>) {
    forall i, j :: 0 <= i < j < |ps| ==> ps[i].number < ps[j].number
  }

  lemma {:induction false} SortKeepsOrdered(ps: seq<Part>)
    requires StrictlyOrdered(ps)
    ensures SortParts(ps) == ps
  {
    if ps == [] {
    } else {
      SortKeepsOrdered(ps[1..]);
      assert ps == [ps[0]] + ps[1..];
    }
  }

  // ------------------------------------------------------------------ operations

  /** The listed stored parts one after the other; None if one is missing or quoted with a foreign ETag. */
  function Concatenated(stored: map<nat, Bytes>, ps: seq<Part>): Option<Bytes> {
    if ps == [] then Some([])
    else
      var last := ps[|ps| - 1];
      match Concatenated(stored, ps[..|ps| - 1])
      case None => None
      case Some(data) =>
        if last.number in stored && last.etag == ETagOf(stored[last.number]) then Some(data + stored[last.number])
            else None
  }

  function NamedBytes(e: ETag): Bytes {
    match e
    case ETagOf(content) => content
    case OtherETag(_) => []
  }

  /** The only content an assembled object can have under this list. */
  function Named(ps: seq<Part>): Bytes {
    if ps == [] then [] else Named(ps[..|ps| - 1]) + NamedBytes(ps[|ps| - 1].etag)
  }

  lemma {:induction false} AssemblyIsNamed(stored: map<nat, Bytes>, ps: seq<Part>)
    requires Concatenated(stored, ps).Some?
    ensures Concatenated(stored, ps).value == Named(ps)
  {
    if ps == [] {
    } else {
      AssemblyIsNamed(stored, ps[..|ps| - 1]);
    }
  }

  function CreateMultipart(s: Store, id: Id, key: Id, declared: Option<Sha>): Store {
    s.(uploads := s.uploads[id := Multipart(key, declared, map[])])
  }

  function PutPart(s: Store, id: Id, number: nat, data: Bytes): Store {
    if id !in s.uploads then s
    else s.(uploads := s.uploads[id := s.uploads[id].(parts := s.uploads[id].parts[number := data])])
  }

  function CompleteMultipart(s: Store, key: Id, id: Id, ps: seq<Part>): (Store, Result<Bytes>) {
    if id !in s.uploads || s.uploads[id].key != key then
      (s, if key in s.objects then Ok(s.objects[key]) else Err(NotFound))
    else
      match Concatenated(s.uploads[id].parts, SortParts(ps))
      case None => (s, Err(InvalidRequest))
      case Some(data) =>
        if s.uploads[id].declared.Some? && s.uploads[id].declared.value != Sha256(data) then (s, Err(InvalidRequest))
        else (Store(s.uploads - {id}, s.objects[key := data]), Ok(data))
  }

  function AbortMultipart(s: Store, key: Id, id: Id): Store {
    if id in s.uploads && s.uploads[id].key == key then s.(uploads := s.uploads - {id}) else s
  }

  function DeleteObject(s: Store, key: Id): Store {
    s.(objects := s.objects - {key})
  }
}
