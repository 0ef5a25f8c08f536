/** Building runs of the upload protocol, call by call. */
module UploadRuns {
  import opened Base
  import opened UploadProtocol

  /** An id above all of these. */
  lemma {:induction false} FreshId(ids: set<Id>) returns (x: Id)
    ensures x != NONE && x !in ids && forall y :: y in ids ==> y < x
    decreases |ids|
  {
    if ids == {} {
      x := 1;
    } else {
      var y :| y in ids;
      var above := FreshId(ids - {y});
      x := if y >= above then y + 1 else above;
      forall z | z in ids ensures z < x { assert z == y || z in ids - {y}; }
    }
  }

  ghost predicate FreshStep(w: World, a: Act, c: Id) {
    && a.Step? && a.c == c && a.fault == Works && a.node !in w.repo.drive.nodes && a.node != NONE
    && a.version !in w.repo.drive.versions && a.blob !in w.repo.drive.blobs
  }

  /** A working call of client `c`, with ids generated for it. */
  lemma WorkingStep(w: World, c: Id) returns (a: Act)
    ensures FreshStep(w, a, c)
  {
    var node := FreshId(w.repo.drive.nodes.Keys);
    var version := FreshId(w.repo.drive.versions.Keys);
    var blob := FreshId(w.repo.drive.blobs.Keys);
    a := Step(c, Works, node, version, blob, NONE);
  }

  lemma Prepend(w: World, a: Act, rest: seq<Act>)
    requires Admissible(w, a) && AdmissibleRun(Next(w, a), rest)
    ensures AdmissibleRun(w, [a] + rest) && Run(w, [a] + rest) == Run(Next(w, a), rest)
  {
    assert ([a] + rest)[1..] == rest;
  }

  lemma {:induction false} RunJoins(w: World, acts: seq<Act>, more: seq<Act>)
    requires AdmissibleRun(w, acts) && AdmissibleRun(Run(w, acts), more)
    ensures AdmissibleRun(w, acts + more) && Run(w, acts + more) == Run(Run(w, acts), more)
    decreases |acts|
  {
    if acts == [] {
      assert acts + more == more;
    } else {
      RunJoins(Next(w, acts[0]), acts[1..], more);
      assert (acts + more)[1..] == acts[1..] + more;
    }
  }

  /** Every one of these is a call of client `c`. */
  predicate AllBy(acts: seq<Act>, c: Id) {
    forall i :: 0 <= i < |acts| ==> acts[i].Step? && acts[i].c == c
  }

  lemma AllByPrepends(a: Act, rest: seq<Act>, c: Id)
    requires a.Step? && a.c == c && AllBy(rest, c)
    ensures AllBy([a] + rest, c)
  {
  }
}
