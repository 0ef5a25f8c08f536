/** The in-memory object storage: part buffers and objects changed in place, proved against the operations on values. */
module MemoryStorage {
  import opened Base
  import opened Storage

  class ObjectStorage {
    var uploads: map<Id, Multipart>
    var objects: map<Id, Bytes>

    function Value(): Store
      reads this
    {
      Store(uploads, objects)
    }

    constructor ()
      ensures Value() == Store(map[], map[])
    {
      uploads, objects := map[], map[];
    }

    method CreateMultipart(id: Id, key: Id, declared: Option<Sha>)
      modifies this
      ensures Value() == Storage.CreateMultipart(old(Value()), id, key, declared)
    {
      uploads := uploads[id := Multipart(key, declared, map[])];
    }

    /** Answers the stored part: its ETag and checksum are computed from the bytes. */
    method PutPart(id: Id, number: nat, data: Bytes) returns (r: Result<Part>)
      modifies this
      ensures Value() == Storage.PutPart(old(Value()), id, number, data)
      ensures r == if id in old(uploads) then Ok(Part(number, ETagOf(data), Some(Sha256(data)), |data|))
              else Err(NotFound)
    {
      if id !in uploads { return Err(NotFound); }
      var upload := uploads[id];
      uploads := uploads[id := upload.(parts := upload.parts[number := data])];
      return Ok(Part(number, ETagOf(data), Some(Sha256(data)), |data|));
    }

    method CompleteMultipart(key: Id, id: Id, parts: seq<Part>) returns (r: Result<Bytes>)
      modifies this
      ensures (Value(), r) == Storage.CompleteMultipart(old(Value()), key, id, parts)
    {
      if id !in uploads || uploads[id].key != key {
        return if key in objects then Ok(objects[key]) else Err(NotFound);
      }
      var upload := uploads[id];
      var ordered := SortParts(parts);
      var data: Bytes := [];
      for i := 0 to |ordered|
        invariant Concatenated(upload.parts, ordered[..i]) == Some(data)
      {
        var part := ordered[i];
        assert ordered[..i + 1][..i] == ordered[..i];
        if part.number !in upload.parts || part.etag != ETagOf(upload.parts[part.number]) {
          MissingPart(upload.parts, ordered, i + 1);
          return Err(InvalidRequest);
        }
        data := data + upload.parts[part.number];
      }
      assert ordered[..|ordered|] == ordered;
      if upload.declared.Some? && upload.declared.value != Sha256(data) { return Err(InvalidRequest); }
      objects := objects[key := data];
      uploads := uploads - {id};
      return Ok(data);
    }

    method AbortMultipart(key: Id, id: Id) returns (r: Result<()>)
      modifies this
      ensures Value() == Storage.AbortMultipart(old(Value()), key, id)
      ensures r.Err? <==> id in old(uploads) && old(uploads)[id].key != key
    {
      if id !in uploads { return Ok(()); }
      if uploads[id].key != key { return Err(NotFound); }
      uploads := uploads - {id};
      return Ok(());
    }

    method DeleteObject(key: Id)
      modifies this
      ensures Value() == Storage.DeleteObject(old(Value()), key)
    {
      objects := objects - {key};
    }
  }

  /** Once a prefix cannot be assembled, the whole list cannot. */
  lemma {:induction false} MissingPart(stored: map<nat, Bytes>, ps: seq<Part>, n: nat)
    requires n <= |ps| && Concatenated(stored, ps[..n]) == None
    ensures Concatenated(stored, ps) == None
  {
    if n < |ps| {
      MissingPart(stored, ps[..|ps| - 1], n) by { assert ps[..|ps| - 1][..n] == ps[..n]; }
    } else {
      assert ps[..n] == ps;
    }
  }
}
