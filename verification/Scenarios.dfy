/**
  Runs from the empty world, call by call, in which maintenance does harm: two that lose a visible
  file through a stale write, and two after which no run deletes an object again.
 */
module Scenarios {
  import opened Base
  import opened Namespace
  import NamespaceInvariant
  import NamespaceRuns
  import RecycleBin
  import opened Storage
  import opened Uploads
  import opened UploadProtocol
  import opened UploadInvariant
  import opened UploadSafety
  import opened UploadRuns
  import opened Reopening
  import Stranded

  // ------------------------------------------------------------------- runs that can happen

  /** How long a completing session must have been left alone before a pass claims it. */
  const STALE: Time := 30

  /** The clock does not go back, and a completing session is claimed only once it is stale. */
  predicate Timely(w: World, a: Act) {
    && (a.Tick? ==> w.now <= a.now)
    && (a.Step? && a.c in w.clients && w.clients[a.c].Maintainer? && w.clients[a.c].mpc == MClaim
        && w.clients[a.c].upload in w.repo.uploads
        && w.repo.uploads[w.clients[a.c].upload].status in {Completing, ObjectCompleted}
        ==> w.repo.uploads[w.clients[a.c].upload].updatedAt + STALE <= w.now)
  }

  ghost predicate TimelyRun(w: World, acts: seq<Act>)
    decreases |acts|
  {
    acts == [] || (Timely(w, acts[0]) && TimelyRun(Next(w, acts[0]), acts[1..]))
  }

  ghost predicate Reaches(acts: seq<Act>, w: World) {
    AdmissibleRun(INITIAL, acts) && TimelyRun(INITIAL, acts) && Run(INITIAL, acts) == w
  }

  lemma {:induction false} RunAppends(w: World, acts: seq<Act>, a: Act)
    requires AdmissibleRun(w, acts) && TimelyRun(w, acts)
    requires Admissible(Run(w, acts), a) && Timely(Run(w, acts), a)
    ensures AdmissibleRun(w, acts + [a]) && TimelyRun(w, acts + [a])
    ensures Run(w, acts + [a]) == Next(Run(w, acts), a)
    decreases |acts|
  {
    if acts == [] {
      assert acts + [a] == [a] && [a][1..] == [];
    } else {
      RunAppends(Next(w, acts[0]), acts[1..], a);
      assert (acts + [a])[1..] == acts[1..] + [a];
    }
  }

  /** One step, admissible and timely, from a world to the next. */
  ghost predicate Leads(w: World, a: Act, x: World) {
    Admissible(w, a) && Timely(w, a) && Next(w, a) == x
  }

  lemma Then(acts: seq<Act>, w: World, a: Act, x: World) returns (more: seq<Act>)
    requires Reaches(acts, w) && Leads(w, a, x)
    ensures Reaches(more, x)
  {
    RunAppends(INITIAL, acts, a);
    more := acts + [a];
  }

  // --------------------------------------------------------------------- one small upload

  const LIST: seq<Part> := [Part(1, ETagOf([0]), None, 1)]
  const LATER: Time := 40

  /** A session that declares `size` bytes; the one part uploaded has one. */
  function Open(size: nat): Session {
    Session(1, 2, 10, "report", 7, size, None, 20, 30, Created, None, NONE, NoFailure, 8, 100, 1, ZERO)
  }

  function Begun(size: nat): Session {
    Moved(Open(size), Completing, ZERO).(digest := Some(PartsDigest(LIST)))
  }

  const TREE := EnsureTenant(EMPTY, 1, 10, ZERO)

  const EMPTY_STORE := Store(map[], map[])
  const PARTED := Store(map[30 := Multipart(20, None, map[1 := [0]])], map[])
  const WHOLE := Store(map[], map[20 := [0]])

  function Uploaded(size: nat): World {
    World(Repo(TREE, map[5 := Open(size)], map[]), PARTED, map[], ZERO)
  }

  function Client1(pc: CompletePc): Client {
    Completer(1, 5, LIST, pc)
  }

  /** The first client alone, in the instant it began. */
  function Alone(s: Session, st: Store, pc: CompletePc): World {
    World(Repo(TREE, map[5 := s], map[5 := LIST]), st, map[1 := Client1(pc)], ZERO)
  }

  /** Later: the completing client (1) and a maintenance pass (2). */
  function At(d: Drive, s: Session, st: Store, pc: CompletePc, mpc: MaintainPc): World {
    World(Repo(d, map[5 := s], map[5 := LIST]), st, map[1 := Client1(pc), 2 := Maintainer(5, false, mpc)], LATER)
  }

  /** A step whose generated ids are new in every world of these runs. */
  function By(c: Id, fault: Fault): Act {
    Step(c, fault, 40, 50, 60, NONE)
  }

  lemma Opening(size: nat) returns (acts: seq<Act>)
    ensures Reaches(acts, Uploaded(size))
  {
    var r := Repo(TREE, map[], map[]);
    var t := Repo(TREE, map[5 := Open(size)], map[]);
    var created := Store(map[30 := Multipart(20, None, map[])], map[]);
    assert Reaches([], INITIAL);
    acts := Then([], INITIAL, Tree(NamespaceRuns.OpEnsureTenant(1, 10, ZERO)), World(r, EMPTY_STORE, map[], ZERO));
    acts := Then(acts, World(r, EMPTY_STORE, map[], ZERO), NewUpload(5, Open(size)), World(t, created, map[], ZERO));
    acts := Then(acts, World(t, created, map[], ZERO), Put(30, 1, [0]), Uploaded(size));
  }

  lemma Arrives(size: nat)
    ensures Leads(Uploaded(size), Arrive(1, Client1(Begin)), Uploaded(size).(clients := map[1 := Client1(Begin)]))
  {
  }

  lemma BeginIsAnswered(size: nat)
    ensures ValidParts(LIST)
    ensures BeginComplete(Repo(TREE, map[5 := Open(size)], map[]), 1, 5, PartsDigest(LIST), LIST, ZERO)
            == (Repo(TREE, map[5 := Begun(size)], map[5 := LIST]), Ok(Begun(size)))
  {
    assert map[5 := Open(size)][5 := Begun(size)] == map[5 := Begun(size)];
  }

  lemma Begins(size: nat)
    ensures Leads(Uploaded(size).(clients := map[1 := Client1(Begin)]), By(1, Works),
                  Alone(Begun(size), PARTED, Assemble(Begun(size))))
  {
    BeginIsAnswered(size);
  }

  /** A client has begun its completion. */
  lemma Beginning(size: nat) returns (acts: seq<Act>)
    ensures Reaches(acts, Alone(Begun(size), PARTED, Assemble(Begun(size))))
  {
    var w := Uploaded(size).(clients := map[1 := Client1(Begin)]);
    acts := Opening(size);
    Arrives(size);
    acts := Then(acts, Uploaded(size), Arrive(1, Client1(Begin)), w);
    Begins(size);
    acts := Then(acts, w, By(1, Works), Alone(Begun(size), PARTED, Assemble(Begun(size))));
  }

  lemma TimePasses(s: Session, st: Store, pc: CompletePc)
    ensures Leads(Alone(s, st, pc), Tick(LATER), Alone(s, st, pc).(now := LATER))
  {
  }

  lemma LoopArrives(s: Session, st: Store, pc: CompletePc)
    ensures Leads(Alone(s, st, pc).(now := LATER), Arrive(2, Maintainer(5, false, MClaim)), At(TREE, s, st, pc, MClaim))
  {
  }

  lemma IsClaimed(s: Session, st: Store, pc: CompletePc)
    requires s.status in {Completing, ObjectCompleted} && s.updatedAt + STALE <= LATER
    ensures Leads(At(TREE, s, st, pc, MClaim), By(2, Works), At(TREE, s, st, pc, MStat(s)))
  {
  }

  /** Time passes, and a maintenance pass claims the stale session. */
  lemma Claiming(acts: seq<Act>, s: Session, st: Store, pc: CompletePc) returns (more: seq<Act>)
    requires Reaches(acts, Alone(s, st, pc))
    requires s.status in {Completing, ObjectCompleted} && s.updatedAt + STALE <= LATER
    ensures Reaches(more, At(TREE, s, st, pc, MStat(s)))
  {
    TimePasses(s, st, pc);
    more := Then(acts, Alone(s, st, pc), Tick(LATER), Alone(s, st, pc).(now := LATER));
    LoopArrives(s, st, pc);
    more := Then(more, Alone(s, st, pc).(now := LATER), Arrive(2, Maintainer(5, false, MClaim)),
        At(TREE, s, st, pc, MClaim));
    IsClaimed(s, st, pc);
    more := Then(more, At(TREE, s, st, pc, MClaim), By(2, Works), At(TREE, s, st, pc, MStat(s)));
  }

  lemma StatFails(s: Session, st: Store, pc: CompletePc)
    ensures Leads(At(TREE, s, st, pc, MStat(s)), By(2, Lost), At(TREE, s, st, pc, MFinish(s, s.status)))
  {
  }

  lemma AssemblesList()
    ensures CompleteMultipart(PARTED, 20, 30, LIST) == (WHOLE, Ok([0]))
  {
    SortKeepsOrdered(LIST);
    var stored := PARTED.uploads[30].parts;
    assert LIST[..|LIST| - 1] == [];
    assert Concatenated(stored, []) == Some([]);
    assert [] + stored[1] == stored[1] == [0];
    assert PARTED.uploads - {30} == WHOLE.uploads && PARTED.objects[20 := stored[1]] == WHOLE.objects;
  }

  lemma AssemblesAlone(size: nat)
    ensures Leads(Alone(Begun(size), PARTED, Assemble(Begun(size))), By(1, Works),
                  Alone(Begun(size), WHOLE, Check(Begun(size), None)))
  {
    AssemblesList();
  }

  lemma Assembles(mpc: MaintainPc)
    ensures Leads(At(TREE, Begun(1), PARTED, Assemble(Begun(1)), mpc), By(1, Works),
                  At(TREE, Begun(1), WHOLE, Check(Begun(1), None), mpc))
  {
    AssemblesList();
  }

  // ------------------------------------------------- a committed file loses its object

  const MARKED := Moved(Begun(1), ObjectCompleted, LATER)
  const DONE := Moved(MARKED, Committed, LATER).(committedNode := 40)
  const FILED := AddFile(TREE, 1, 10, "report", 7, 40, 50, 60, 20, 1, LATER)
  const WAITING := MFinish(Begun(1), Completing)

  lemma Checks()
    ensures Leads(At(TREE, Begun(1), WHOLE, Check(Begun(1), None), WAITING), By(1, Works),
                  At(TREE, Begun(1), WHOLE, Mark(Begun(1), 1), WAITING))
  {
  }

  lemma Marks()
    ensures Leads(At(TREE, Begun(1), WHOLE, Mark(Begun(1), 1), WAITING), By(1, Works),
                  At(TREE, MARKED, WHOLE, Commit(MARKED, 1), WAITING))
  {
  }

  lemma CommitsFile()
    ensures Leads(At(TREE, MARKED, WHOLE, Commit(MARKED, 1), WAITING), By(1, Works),
                  At(FILED, DONE, WHOLE, Completed(Ok((40, true))), WAITING))
  {
  }

  /** The Stat of the pass fails; while it waits, the client completes and commits. */
  lemma Overtaken() returns (acts: seq<Act>)
    ensures Reaches(acts, At(FILED, DONE, WHOLE, Completed(Ok((40, true))), WAITING))
  {
    var s := Begun(1);
    acts := Beginning(1);
    acts := Claiming(acts, s, PARTED, Assemble(s));
    StatFails(s, PARTED, Assemble(s));
    acts := Then(acts, At(TREE, s, PARTED, Assemble(s), MStat(s)), By(2, Lost),
        At(TREE, s, PARTED, Assemble(s), WAITING));
    Assembles(WAITING);
    acts := Then(acts, At(TREE, s, PARTED, Assemble(s), WAITING), By(1, Works),
        At(TREE, s, WHOLE, Check(s, None), WAITING));
    Checks();
    acts := Then(acts, At(TREE, s, WHOLE, Check(s, None), WAITING), By(1, Works),
        At(TREE, s, WHOLE, Mark(s, 1), WAITING));
    Marks();
    var marked := At(TREE, MARKED, WHOLE, Commit(MARKED, 1), WAITING);
    acts := Then(acts, At(TREE, s, WHOLE, Mark(s, 1), WAITING), By(1, Works), marked);
    CommitsFile();
    acts := Then(acts, marked, By(1, Works), At(FILED, DONE, WHOLE, Completed(Ok((40, true))), WAITING));
  }

  lemma CommittedWriteIsStale()
    ensures var w := At(FILED, DONE, WHOLE, Completed(Ok((40, true))), WAITING);
            && WritesStale(w, By(2, Works)) && Reopens(w.clients[2].mpc.status) && w.repo.uploads[5] == DONE
            && 40 in w.repo.drive.nodes && Visible(w.repo.drive.nodes[40])
  {
  }

  /**
    The input: everything so far was admissible and timely, a pass is about to write Completing over a
    committed, visible file, and after that write an admissible run loses its object.
   */
  lemma FileIsLost() returns (before: seq<Act>, write: Act, after: seq<Act>)
    ensures AdmissibleRun(INITIAL, before) && TimelyRun(INITIAL, before) && WritesStale(Run(INITIAL, before), write)
    ensures AdmissibleRun(Next(Run(INITIAL, before), write), after)
    ensures LosesFile(Run(Next(Run(INITIAL, before), write), after), 40)
    ensures Visible(Run(Next(Run(INITIAL, before), write), after).repo.drive.nodes[40])
  {
    before := Overtaken();
    write := By(2, Works);
    InitialInv();
    RunKeepsInv(INITIAL, before);
    CommittedWriteIsStale();
    after := CommittedFileIsLost(Run(INITIAL, before), write);
  }

  // ---------------------------------------------------- a failed upload loses a new file

  const MARKED_AT_ONCE := Moved(Begun(1), ObjectCompleted, ZERO)
  const REFUSED := Moved(MARKED_AT_ONCE, Failed, LATER).(failure := NameTakenFailure)
  const CONFLICT := CreateDirectory(TREE, 1, 70, 10, "report", 7, LATER).0
  const STUCK := MFinish(MARKED_AT_ONCE, ObjectCompleted)

  /** The directory that took the name, in the recycle bin. */
  ghost function Freed(): Drive {
    Recycle(CONFLICT, 1, 70, 1, LATER).0
  }

  lemma ChecksAlone()
    ensures Leads(Alone(Begun(1), WHOLE, Check(Begun(1), None)), By(1, Works),
            Alone(Begun(1), WHOLE, Mark(Begun(1), 1)))
  {
  }

  lemma MarksAlone()
    ensures Leads(Alone(Begun(1), WHOLE, Mark(Begun(1), 1)), By(1, Works),
                  Alone(MARKED_AT_ONCE, WHOLE, Commit(MARKED_AT_ONCE, 1)))
  {
  }

  lemma NameIsTaken()
    ensures Leads(At(TREE, MARKED_AT_ONCE, WHOLE, Commit(MARKED_AT_ONCE, 1), STUCK),
                  Tree(NamespaceRuns.OpCreateDirectory(1, 70, 10, "report", 7, LATER)),
                  At(CONFLICT, MARKED_AT_ONCE, WHOLE, Commit(MARKED_AT_ONCE, 1), STUCK))
  {
  }

  lemma NameConflictIsSeen()
    ensures OpenDirectory(CONFLICT, 1, 10) && NameTaken(CONFLICT, 1, 10, 7, NONE)
  {
    assert CONFLICT.nodes[70].name == 7 && Visible(CONFLICT.nodes[70]) && CONFLICT.nodes[70].parent == 10;
  }

  lemma RefusalIsAnswered()
    ensures var r := Repo(CONFLICT, map[5 := MARKED_AT_ONCE], map[5 := LIST]);
            CommitUpload(r, 1, 5, PartsDigest(LIST), 40, 50, 60, 1, LATER)
            == (Repo(CONFLICT, map[5 := REFUSED], map[5 := LIST]), Err(NameConflict))
  {
    NameConflictIsSeen();
    assert map[5 := MARKED_AT_ONCE][5 := REFUSED] == map[5 := REFUSED];
  }

  lemma RefusalIsStepped()
    ensures var w := At(CONFLICT, MARKED_AT_ONCE, WHOLE, Commit(MARKED_AT_ONCE, 1), STUCK);
            CompleterStep(w, Client1(Commit(MARKED_AT_ONCE, 1)), By(1, Works))
            == (Repo(CONFLICT, map[5 := REFUSED], map[5 := LIST]), WHOLE, Undo(MARKED_AT_ONCE, NameConflict))
  {
    RefusalIsAnswered();
  }

  lemma CommitIsRefused()
    ensures Leads(At(CONFLICT, MARKED_AT_ONCE, WHOLE, Commit(MARKED_AT_ONCE, 1), STUCK), By(1, Works),
                  At(CONFLICT, REFUSED, WHOLE, Undo(MARKED_AT_ONCE, NameConflict), STUCK))
  {
    RefusalIsStepped();
  }

  lemma NameIsFreed()
    ensures Leads(At(CONFLICT, REFUSED, WHOLE, Undo(MARKED_AT_ONCE, NameConflict), STUCK),
                  Tree(NamespaceRuns.OpRecycle(1, 70, 1, LATER)),
                  At(Freed(), REFUSED, WHOLE, Undo(MARKED_AT_ONCE, NameConflict), STUCK))
  {
  }

  /** The pass is stuck with ObjectCompleted; the commit meets a name conflict that then goes away. */
  lemma Conflicting() returns (acts: seq<Act>)
    ensures Reaches(acts, At(Freed(), REFUSED, WHOLE, Undo(MARKED_AT_ONCE, NameConflict), STUCK))
  {
    var s, m := Begun(1), MARKED_AT_ONCE;
    acts := Beginning(1);
    AssemblesAlone(1);
    acts := Then(acts, Alone(s, PARTED, Assemble(s)), By(1, Works), Alone(s, WHOLE, Check(s, None)));
    ChecksAlone();
    acts := Then(acts, Alone(s, WHOLE, Check(s, None)), By(1, Works), Alone(s, WHOLE, Mark(s, 1)));
    MarksAlone();
    acts := Then(acts, Alone(s, WHOLE, Mark(s, 1)), By(1, Works), Alone(m, WHOLE, Commit(m, 1)));
    acts := Claiming(acts, m, WHOLE, Commit(m, 1));
    StatFails(m, WHOLE, Commit(m, 1));
    acts := Then(acts, At(TREE, m, WHOLE, Commit(m, 1), MStat(m)), By(2, Lost),
        At(TREE, m, WHOLE, Commit(m, 1), STUCK));
    acts := Colliding(acts);
  }

  lemma Colliding(acts: seq<Act>) returns (more: seq<Act>)
    requires Reaches(acts, At(TREE, MARKED_AT_ONCE, WHOLE, Commit(MARKED_AT_ONCE, 1), STUCK))
    ensures Reaches(more, At(Freed(), REFUSED, WHOLE, Undo(MARKED_AT_ONCE, NameConflict), STUCK))
  {
    var pc, undo := Commit(MARKED_AT_ONCE, 1), Undo(MARKED_AT_ONCE, NameConflict);
    NameIsTaken();
    more := Then(acts, At(TREE, MARKED_AT_ONCE, WHOLE, pc, STUCK),
                 Tree(NamespaceRuns.OpCreateDirectory(1, 70, 10, "report", 7, LATER)),
                 At(CONFLICT, MARKED_AT_ONCE, WHOLE, pc, STUCK));
    CommitIsRefused();
    more := Then(more, At(CONFLICT, MARKED_AT_ONCE, WHOLE, pc, STUCK), By(1, Works),
        At(CONFLICT, REFUSED, WHOLE, undo, STUCK));
    NameIsFreed();
    more := Then(more, At(CONFLICT, REFUSED, WHOLE, undo, STUCK), Tree(NamespaceRuns.OpRecycle(1, 70, 1, LATER)),
                 At(Freed(), REFUSED, WHOLE, undo, STUCK));
  }

  lemma ConflictIsAForest()
    ensures Namespace.Inv(CONFLICT) && CONFLICT.nodes.Keys == {10, 70} && CONFLICT.nodes[70].parent == 10
    ensures VisibleIn(CONFLICT, 1, 70) && OpenDirectory(CONFLICT, 1, 10) && !IsTenantRoot(CONFLICT, 1, 70)
  {
    NamespaceRuns.EmptyInv();
    NamespaceInvariant.EnsureTenantKeepsInv(EMPTY, 1, 10, ZERO);
    NamespaceInvariant.CreateDirectoryKeepsInv(TREE, 1, 70, 10, "report", 7, LATER);
  }

  lemma FreedName()
    ensures OpenDirectory(Freed(), 1, 10) && !NameTaken(Freed(), 1, 10, 7, NONE)
  {
    ConflictIsAForest();
    RecycleBin.ParentStaysOutside(CONFLICT, 70);
    NamespaceInvariant.VisibleSubtreeIsClosed(CONFLICT, 70, 70);
    assert Freed().nodes[10] == CONFLICT.nodes[10] && Freed().nodes[70].trashedRoot == 70;
  }

  lemma FailedWriteIsStale()
    ensures var w := At(Freed(), REFUSED, WHOLE, Undo(MARKED_AT_ONCE, NameConflict), STUCK);
            && WritesStale(w, By(2, Works)) && Reopens(w.clients[2].mpc.status) && w.repo.uploads[5] == REFUSED
            && HasObject(w.store, REFUSED) && IsDeleting(w.clients[1], REFUSED.key)
  {
  }

  /**
    The input: a pass is about to write ObjectCompleted over an upload that has failed for its name,
    which is free again, while the client is about to delete the object; after that write an
    admissible run commits a new file and loses its object.
   */
  lemma NewFileIsLost() returns (before: seq<Act>, write: Act, after: seq<Act>, n: Id)
    ensures AdmissibleRun(INITIAL, before) && TimelyRun(INITIAL, before) && WritesStale(Run(INITIAL, before), write)
    ensures AdmissibleRun(Next(Run(INITIAL, before), write), after)
    ensures LosesFile(Run(Next(Run(INITIAL, before), write), after), n)
    ensures Visible(Run(Next(Run(INITIAL, before), write), after).repo.drive.nodes[n])
  {
    before := Conflicting();
    write := By(2, Works);
    InitialInv();
    RunKeepsInv(INITIAL, before);
    FreedName();
    FailedWriteIsStale();
    after, n := FailedUploadLosesAFile(Run(INITIAL, before), write, 1);
  }

  // ----------------------------------------------- an object of the wrong size is left

  const GAVE_UP := Completed(Err(DependencyUnavailable))

  lemma CheckFails()
    ensures Leads(Alone(Begun(2), WHOLE, Check(Begun(2), None)), By(1, Lost), Alone(Begun(2), WHOLE, GAVE_UP))
  {
  }

  lemma WrongSizeIsFound()
    ensures Leads(At(TREE, Begun(2), WHOLE, GAVE_UP, MStat(Begun(2))), By(2, Works),
                  At(TREE, Begun(2), WHOLE, GAVE_UP, MDiscard(Begun(2))))
  {
  }

  lemma NobodyElseDeletes()
    ensures var w := At(TREE, Begun(2), WHOLE, GAVE_UP, MDiscard(Begun(2)));
            && Stranded.Discarding(w, 2) && Admissible(w, By(2, Refused)) && FreshStep(w, By(2, Works), 2)
            && w.repo.uploads[w.clients[2].upload].key == 20
            && forall e :: e in w.clients && e != 2 ==> !Stranded.Threatens(w.clients[e], w.clients[2].upload, true)
  {
  }

  /**
    The input: a client assembles one byte where two were declared and loses touch; the pass that finds
    the object is refused its deletion; from then on no run deletes it.
   */
  lemma ObjectIsStranded() returns (before: seq<Act>, after: seq<Act>)
    ensures AdmissibleRun(INITIAL, before) && TimelyRun(INITIAL, before)
    ensures AdmissibleRun(Run(INITIAL, before), after)
    ensures var w := Run(Run(INITIAL, before), after);
            forall acts :: AdmissibleRun(w, acts) ==> 20 in Run(w, acts).store.objects
  {
    var s := Begun(2);
    before := Beginning(2);
    AssemblesAlone(2);
    before := Then(before, Alone(s, PARTED, Assemble(s)), By(1, Works), Alone(s, WHOLE, Check(s, None)));
    CheckFails();
    before := Then(before, Alone(s, WHOLE, Check(s, None)), By(1, Lost), Alone(s, WHOLE, GAVE_UP));
    before := Claiming(before, s, WHOLE, GAVE_UP);
    WrongSizeIsFound();
    before := Then(before, At(TREE, s, WHOLE, GAVE_UP, MStat(s)), By(2, Works),
        At(TREE, s, WHOLE, GAVE_UP, MDiscard(s)));
    InitialInv();
    RunKeepsInv(INITIAL, before);
    after := [By(2, Refused), By(2, Works)];
    NobodyElseDeletes();
    Stranded.RefusedDiscardStaysIff(Run(INITIAL, before), 2, By(2, Refused), By(2, Works));
  }

  // ------------------------------------------- an object of the right size is left as well

  const CUT_SHORT := Moved(Begun(1), Failed, LATER)
  const TURNED_AWAY := Completed(Err(InvalidState))

  lemma ObjectIsNotFound()
    ensures var s := Begun(1);
            Leads(At(TREE, s, PARTED, Assemble(s), MStat(s)), By(2, Works),
                At(TREE, s, PARTED, Assemble(s), MClean(s, Failed)))
  {
  }

  lemma MultipartIsGone()
    ensures var s := Begun(1);
            Leads(At(TREE, s, WHOLE, Check(s, None), MClean(s, Failed)), By(2, Works),
                  At(TREE, s, WHOLE, Check(s, None), MFinish(s, Failed)))
  {
  }

  lemma PassFails()
    ensures var s := Begun(1);
            Leads(At(TREE, s, WHOLE, Check(s, None), MFinish(s, Failed)), By(2, Works),
                  At(TREE, CUT_SHORT, WHOLE, Check(s, None), MEnd))
  {
  }

  lemma ClientFindsObject()
    ensures var s := Begun(1);
            Leads(At(TREE, CUT_SHORT, WHOLE, Check(s, None), MEnd), By(1, Works),
                At(TREE, CUT_SHORT, WHOLE, Mark(s, 1), MEnd))
  {
  }

  lemma ClientIsTurnedAway()
    ensures var s := Begun(1);
            Leads(At(TREE, CUT_SHORT, WHOLE, Mark(s, 1), MEnd), By(1, Works),
                At(TREE, CUT_SHORT, WHOLE, TURNED_AWAY, MEnd))
  {
  }

  lemma NobodyDeletes()
    ensures var w := At(TREE, CUT_SHORT, WHOLE, TURNED_AWAY, MEnd);
            Stranded.Left(w, 5) && Stranded.Unthreatened(w, 5) && w.repo.uploads[5].key == 20
  {
  }

  /**
    The input, without a single fault: the Stat of a pass comes just before the client assembles its
    object; the pass fails the session, the client is turned away, and no run deletes the object.
   */
  lemma ObjectIsMissed() returns (acts: seq<Act>)
    ensures AdmissibleRun(INITIAL, acts) && TimelyRun(INITIAL, acts)
    ensures var w := Run(INITIAL, acts);
            forall more :: AdmissibleRun(w, more) ==> 20 in Run(w, more).store.objects
  {
    var s := Begun(1);
    acts := Beginning(1);
    acts := Claiming(acts, s, PARTED, Assemble(s));
    ObjectIsNotFound();
    var cleaning := MClean(s, Failed);
    acts := Then(acts, At(TREE, s, PARTED, Assemble(s), MStat(s)), By(2, Works),
        At(TREE, s, PARTED, Assemble(s), cleaning));
    Assembles(cleaning);
    acts := Then(acts, At(TREE, s, PARTED, Assemble(s), cleaning), By(1, Works),
        At(TREE, s, WHOLE, Check(s, None), cleaning));
    MultipartIsGone();
    var finishing := At(TREE, s, WHOLE, Check(s, None), MFinish(s, Failed));
    acts := Then(acts, At(TREE, s, WHOLE, Check(s, None), cleaning), By(2, Works), finishing);
    PassFails();
    acts := Then(acts, finishing, By(2, Works), At(TREE, CUT_SHORT, WHOLE, Check(s, None), MEnd));
    ClientFindsObject();
    var marking := At(TREE, CUT_SHORT, WHOLE, Mark(s, 1), MEnd);
    acts := Then(acts, At(TREE, CUT_SHORT, WHOLE, Check(s, None), MEnd), By(1, Works), marking);
    ClientIsTurnedAway();
    acts := Then(acts, marking, By(1, Works), At(TREE, CUT_SHORT, WHOLE, TURNED_AWAY, MEnd));
    InitialInv();
    RunKeepsInv(INITIAL, acts);
    NobodyDeletes();
    Stranded.LeftObjectStaysIff(Run(INITIAL, acts), 5);
  }
}
