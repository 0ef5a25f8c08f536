/**
  The cutting of a file into parts, as the browser and the control plane compute it
  independently of each other, and what a list of part ETags says about the object that
  storage assembles from it.
 */
module PartGeometry {
  import opened Base
  import opened Storage
  import opened UploadProtocol

  /** signedPartSize: the server's size of part `number` of a session. */
  function SignedPartSize(expected: nat, partSize: nat, number: int): int {
    var remaining := expected - (number - 1) * partSize;
    if remaining > partSize then partSize else if remaining < 0 then 0 else remaining
  }

  /** expectedPartSize: the browser's size of the part at `index`. */
  function ExpectedPartSize(size: nat, partSize: nat, index: int): int {
    var remaining := size - index * partSize;
    if partSize < remaining then partSize else remaining
  }

  function CeilingDiv(a: nat, b: nat): nat
    requires b > 0
  {
    (a + b - 1) / b
  }

  /** partCountFor: None where the browser refuses the file. */
  function PartCount(size: nat, partSize: nat): Option<nat>
    requires partSize > 0
  {
    var n := CeilingDiv(size, partSize);
    if n < 1 || n > MAX_PARTS then None else Some(n)
  }

  /** The bytes uploadPart sends for the part at `index`. */
  function Slice(file: Bytes, partSize: nat, index: nat): (chunk: Bytes)
    requires index * partSize <= |file|
  {
    var start := index * partSize;
    file[start..if start + partSize < |file| then start + partSize else |file|]
  }

  lemma CountBounds(size: nat, partSize: nat)
    requires partSize > 0
    ensures var n := CeilingDiv(size, partSize);
            size <= n * partSize && (n > 0 ==> (n - 1) * partSize < size) && (n == 0 <==> size == 0)
  {
    var n := CeilingDiv(size, partSize);
    assert size + partSize - 1 == n * partSize + (size + partSize - 1) % partSize;
    assert n > 0 ==> (n - 1) * partSize == n * partSize - partSize;
  }

  lemma IndexInside(size: nat, partSize: nat, index: nat)
    requires partSize > 0 && index < CeilingDiv(size, partSize)
    ensures index * partSize < size && 0 <= index * partSize
  {
    CountBounds(size, partSize);
    var n := CeilingDiv(size, partSize);
    assert index * partSize <= (n - 1) * partSize;
  }

  /** Client and server agree on the size of every part of the file, and it is the size of the slice sent. */
  lemma SizesAgree(file: Bytes, partSize: nat, index: nat)
    requires partSize > 0 && index < CeilingDiv(|file|, partSize)
    ensures index * partSize < |file|
    ensures 0 < |Slice(file, partSize, index)| == ExpectedPartSize(|file|, partSize, index) == SignedPartSize(|file|,
            partSize, index + 1) <= partSize
  {
    IndexInside(|file|, partSize, index);
  }

  function SliceETag(file: Bytes, partSize: nat, index: nat): ETag {
    if index * partSize <= |file| then ETagOf(Slice(file, partSize, index)) else OtherETag("")
  }

  /** The entry of a completion list that stands for the file's own bytes at `index`. */
  function FilePart(file: Bytes, partSize: nat, index: nat): Part {
    Part(index + 1, SliceETag(file, partSize, index), None, ExpectedPartSize(|file|, partSize, index))
  }

  /** The completion list of `file`: parts 1..n in order. */
  function FileParts(file: Bytes, partSize: nat): seq<Part>
    requires partSize > 0
  {
    seq(CeilingDiv(|file|, partSize), (i: nat) => FilePart(file, partSize, i))
  }

  // --------------------------------------------------------------- the slices tile the file

  function Upto(file: Bytes, end: nat): Bytes {
    file[..if end < |file| then end else |file|]
  }

  lemma SliceExtends(file: Bytes, start: nat, partSize: nat, chunk: Bytes)
    requires start < |file| && chunk == file[start..if start + partSize < |file| then start + partSize else |file|]
    ensures Upto(file, start) + chunk == Upto(file, start + partSize)
  {
  }

  /** `start` is the offset at which the part at `index` begins. */
  predicate StartsAt(partSize: nat, index: nat, start: nat) {
    index * partSize == start
  }

  lemma NextStart(partSize: nat, index: nat, start: nat)
    ensures StartsAt(partSize, index + 1, start + partSize) <==> StartsAt(partSize, index, start)
  {
  }

  lemma SliceTag(file: Bytes, partSize: nat, index: nat, start: nat)
    requires StartsAt(partSize, index, start) && start < |file|
    ensures Upto(file, start) + NamedBytes(SliceETag(file, partSize, index)) == Upto(file, start + partSize)
  {
    SliceExtends(file, start, partSize, Slice(file, partSize, index));
  }

  lemma {:induction false} SlicesTile(file: Bytes, partSize: nat, ps: seq<Part>, end: nat)
    requires forall i :: 0 <= i < |ps| ==> ps[i].etag == SliceETag(file, partSize, i)
    requires StartsAt(partSize, |ps|, end) && (ps != [] ==> end < |file| + partSize)
    ensures Named(ps) == Upto(file, end)
  {
    if ps == [] {
    } else {
      var index := |ps| - 1;
      assert end >= partSize by { SmallestProduct(partSize, |ps|); }
      NextStart(partSize, index, end - partSize);
      SlicesTile(file, partSize, ps[..index], end - partSize);
      SliceTag(file, partSize, index, end - partSize);
    }
  }

  lemma SmallestProduct(a: nat, n: nat)
    requires n > 0
    ensures n * a >= a
  {
  }

  /** The file's parts, put together, are the file. */
  lemma FilePartsNameTheFile(file: Bytes, partSize: nat)
    requires partSize > 0
    ensures Named(FileParts(file, partSize)) == file
  {
    var ps := FileParts(file, partSize);
    CountBounds(|file|, partSize);
    SlicesTile(file, partSize, ps, |ps| * partSize);
  }

  /** A completion list of a file the browser accepts passes the control plane's validation. */
  lemma FilePartsAreValid(file: Bytes, partSize: nat)
    requires partSize > 0 && PartCount(|file|, partSize).Some?
    ensures ValidParts(FileParts(file, partSize)) && SortParts(FileParts(file, partSize)) == FileParts(file, partSize)
  {
    var ps := FileParts(file, partSize);
    forall i | 0 <= i < |ps| ensures ps[i].etag != OtherETag("") { IndexInside(|file|, partSize, i); }
    SortKeepsOrdered(ps);
  }
}
