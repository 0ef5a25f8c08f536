/**
  The browser's upload workers: they share the `completed` array, a cursor over the pending
  indices and an abort signal, and interleave at every await.
 */
module WorkerPool {
  import opened Base
  import opened Storage
  import opened PartGeometry

  const PART_ATTEMPTS := 4
  const MAX_CONCURRENCY := 3

  datatype Worker = Idle | Sending(slot: nat, attempt: nat) | Stopped

  /** How one attempt to sign and PUT a part ends; the ETag an accepted PUT answers names the bytes sent. */
  datatype Reply = Accepted | WithoutETag | Retryable | Refused

  /** One worker gets to run until its next await, or the user cancels. */
  datatype Event = Turn(worker: nat, reply: Reply) | Cancel

  datatype Trouble = Cancelled | Broken
  datatype PoolEnd = Filled | Failed(trouble: Trouble) | Unfinished

  function Filling(s: seq<Option<Part>>): nat {
    if s == [] then 0 else Filling(s[..|s| - 1]) + if s[|s| - 1].Some? then 1 else 0
  }

  lemma {:induction false} FillingGrows(s: seq<Option<Part>>, i: nat, p: Part)
    requires i < |s| && s[i] == None
    ensures Filling(s[i := Some(p)]) == Filling(s) + 1
  {
    var last := |s| - 1;
    if i < last {
      FillingGrows(s[..last], i, p);
      assert s[i := Some(p)][..last] == s[..last][i := Some(p)];
    } else {
      assert s[i := Some(p)][..last] == s[..last];
    }
  }

  lemma {:induction false} FillingIsBounded(s: seq<Option<Part>>)
    ensures Filling(s) <= |s|
    ensures Filling(s) == |s| <==> forall i :: 0 <= i < |s| ==> s[i].Some?
  {
    if s == [] {
    } else {
      FillingIsBounded(s[..|s| - 1]);
    }
  }

  /** The indices still to be sent, in order. */
  function Missing(s: seq<Option<Part>>): (r: seq<nat>)
    ensures forall i: nat :: i in r <==> i < |s| && s[i] == None
    ensures forall j :: 0 <= j < |r| ==> r[j] < |s| && s[r[j]] == None
    ensures forall j, k :: 0 <= j < k < |r| ==> r[j] < r[k]
    ensures |r| + Filling(s) == |s|
  {
    if s == [] then []
    else
      var before := Missing(s[..|s| - 1]);
      if s[|s| - 1] == None then before + [|s| - 1] else before
  }

  // ------------------------------------------------------------ the pool as a value

  /** `sent` lists the indices whose PUT was accepted, in order. */
  datatype View = View(
    file: Bytes, partSize: nat, given: seq<Option<Part>>, completed: seq<Option<Part>>,
    workers: seq<Worker>, nextPending: nat, finished: nat, firstFailure: Option<Trouble>, aborted: bool, sent: seq<nat>)
  {
    function Pending(): seq<nat> { Missing(given) }
  }

  predicate Sends(v: View, w: nat) {
    w < |v.workers| && v.workers[w].Sending?
  }

  /** An idle worker takes the next pending index, or stops. */
  function Take(v: View, w: nat): View
    requires w < |v.workers|
  {
    if v.aborted then v.(workers := v.workers[w := Stopped])
    else
      var slot := v.nextPending;
      v.(nextPending := slot + 1,
          workers := v.workers[w := if slot >= |v.Pending()| then Stopped else Sending(slot, 1)])
  }

  /** An accepted part is entered at its index, and its worker goes on. */
  function Deliver(v: View, w: nat): View
    requires Sends(v, w) && v.workers[w].slot < |v.Pending()| && |v.given| == |v.completed|
  {
    var index := v.Pending()[v.workers[w].slot];
    v.(completed := v.completed[index := Some(FilePart(v.file, v.partSize, index))], finished := v.finished + 1,
       sent := v.sent + [index], workers := v.workers[w := Idle])
  }

  /** A part failed for good: the first failure is kept and the others are told to stop. */
  function Fail(v: View, w: nat, trouble: Trouble): View
    requires w < |v.workers|
  {
    v.(firstFailure := if v.firstFailure == None then Some(trouble)
        else v.firstFailure, aborted := true, workers := v.workers[w := Stopped])
  }

  function Retry(v: View, w: nat): View
    requires Sends(v, w)
  {
    v.(workers := v.workers[w := v.workers[w].(attempt := v.workers[w].attempt + 1)])
  }

  function React(v: View, e: Event): View
    requires Fits(v)
  {
    match e
    case Cancel => v.(aborted := true)
    case Turn(w, reply) =>
      if w >= |v.workers| || v.workers[w] == Stopped then v
      else if v.workers[w] == Idle then Take(v, w)
      else if reply == Accepted then assert WorkerOk(v, w); Deliver(v, w)
      else if v.aborted then Fail(v, w, Cancelled)
      else if reply != Retryable || v.workers[w].attempt >= PART_ATTEMPTS then Fail(v, w, Broken)
      else Retry(v, w)
  }

  // --------------------------------------------------------------------- invariant

  predicate WorkerOk(v: View, w: nat)
    requires w < |v.workers| && |v.given| == |v.completed|
  {
    match v.workers[w]
    case Idle => true
    case Sending(slot, attempt) =>
      slot < v.nextPending && slot < |v.Pending()| && 1 <= attempt <= PART_ATTEMPTS
      && v.completed[v.Pending()[slot]] == None
    case Stopped => v.aborted || v.nextPending >= |v.Pending()|
  }

  /** What a turn needs in order to be defined. */
  predicate Fits(v: View) {
    |v.given| == |v.completed| && forall w {:trigger WorkerOk(v, w)} :: 0 <= w < |v.workers| ==> WorkerOk(v, w)
  }

  /** Entry `i` is as given, or was sent from the file. */
  predicate EntryOk(v: View, i: nat)
    requires i < |v.given| == |v.completed|
  {
    v.completed[i] == v.given[i] || (v.given[i] == None && v.completed[i] == Some(FilePart(v.file, v.partSize, i)))
  }

  predicate Holds(v: View, w: nat, slot: nat) {
    Sends(v, w) && v.workers[w].slot == slot
  }

  /** A taken slot is delivered, on its way, or lost to a failure. */
  ghost predicate SlotOk(v: View, slot: nat)
    requires slot < |v.Pending()| && |v.given| == |v.completed|
  {
    if v.completed[v.Pending()[slot]].Some? then slot < v.nextPending && v.Pending()[slot] in v.sent
    else slot >= v.nextPending || v.firstFailure.Some? || exists w :: Holds(v, w, slot)
  }

  ghost predicate Exclusive(v: View) {
    forall w, x, slot {:trigger Holds(v, w, slot), Holds(v, x, slot)} :: Holds(v, w, slot) && Holds(v, x, slot) ==>
        w == x
  }

  predicate SentOnce(v: View) {
    && (forall j, k :: 0 <= j < k < |v.sent| ==> v.sent[j] != v.sent[k])
    && (forall j :: 0 <= j < |v.sent| ==>
         v.sent[j] < |v.given| == |v.completed| && v.given[v.sent[j]] == None && v.completed[v.sent[j]].Some?)
  }

  ghost predicate Inv(v: View) {
    && Fits(v)
    && (forall i {:trigger EntryOk(v, i)} :: 0 <= i < |v.given| ==> EntryOk(v, i))
    && (forall slot {:trigger SlotOk(v, slot)} :: 0 <= slot < |v.Pending()| ==> SlotOk(v, slot))
    && Exclusive(v)
    && SentOnce(v)
    && (v.firstFailure.Some? ==> v.aborted)
    && v.finished == Filling(v.completed)
    && (v.Pending() != [] ==> v.workers != [])
  }
  /** Two lists without repetitions that have the same members are permutations of each other. */
  lemma SameElements(s: seq<nat>, t: seq<nat>)
    requires forall j, k :: 0 <= j < k < |s| ==> s[j] != s[k]
    requires forall j, k :: 0 <= j < k < |t| ==> t[j] != t[k]
    requires forall x :: x in s <==> x in t
    ensures multiset(s) == multiset(t)
  {
    forall x: nat ensures multiset(s)[x] == multiset(t)[x] {
      OccursOnce(s, x);
      OccursOnce(t, x);
    }
  }

  lemma {:induction false} OccursOnce(s: seq<nat>, x: nat)
    requires forall j, k :: 0 <= j < k < |s| ==> s[j] != s[k]
    ensures multiset(s)[x] == if x in s then 1 else 0
  {
    if s == [] {
    } else {
      var last := |s| - 1;
      OccursOnce(s[..last], x);
      assert s == s[..last] + [s[last]];
    }
  }

  // ------------------------------------------------------------- what a turn keeps

  /** Worker `w` takes a turn that delivers nothing: it may take the next slot, keep its own, or give up. */
  predicate QuietTurn(v: View, x: View, w: nat) {
    && w < |v.workers| == |x.workers| && x.workers == v.workers[w := x.workers[w]]
    && x == v.(workers := x.workers, nextPending := x.nextPending, firstFailure := x.firstFailure, aborted := x.aborted)
    && (v.firstFailure.Some? ==> x.firstFailure.Some?) && (x.firstFailure.Some? ==> x.aborted)
         && (v.aborted ==> x.aborted)
    && match (v.workers[w], x.workers[w])
       case (Idle, Sending(slot, n)) => n == 1 && slot == v.nextPending && x.nextPending == slot + 1
           && slot < |v.Pending()|
       case (Idle, Stopped) => if x.aborted then x.nextPending == v.nextPending
           else x.nextPending == v.nextPending + 1 > |v.Pending()|
       case (Sending(slot, _), Sending(same, n)) => slot == same && n <= PART_ATTEMPTS && n >= 1
           && x.nextPending == v.nextPending
       case (Sending(_, _), Stopped) => x.firstFailure.Some? && x.nextPending == v.nextPending
       case _ => false
  }
  lemma QuietTurnFits(v: View, x: View, w: nat)
    requires Inv(v) && QuietTurn(v, x, w)
    ensures Fits(x)
  {
    assert WorkerOk(v, w);
    assert v.nextPending < |v.Pending()| ==> SlotOk(v, v.nextPending);
    forall y {:trigger WorkerOk(x, y)} | 0 <= y < |x.workers| ensures WorkerOk(x, y) { assert WorkerOk(v, y); }
  }

  lemma QuietTurnSlots(v: View, x: View, w: nat, slot: nat)
    requires Inv(v) && QuietTurn(v, x, w) && slot < |v.Pending()|
    ensures SlotOk(x, slot)
  {
    assert SlotOk(v, slot);
    if y :| Holds(v, y, slot) { assert x.firstFailure.Some? || Holds(x, y, slot); }
    if v.nextPending == slot < x.nextPending { assert Holds(x, w, slot); }
  }

  lemma QuietTurnExclusive(v: View, x: View, w: nat)
    requires Fits(v) && Exclusive(v) && QuietTurn(v, x, w)
    ensures Exclusive(x)
  {
    forall y, z, slot {:trigger Holds(x, y, slot), Holds(x, z, slot)} | Holds(x, y, slot) && Holds(x, z, slot)
        ensures y == z {
      assert WorkerOk(v, y) && WorkerOk(v, z);
      assert y != w ==> Holds(v, y, slot);
      assert z != w ==> Holds(v, z, slot);
      assert v.workers[w].Sending? && x.workers[w].Sending? && x.workers[w].slot == slot ==> Holds(v, w, slot);
    }
  }

  lemma QuietTurnKeeps(v: View, x: View, w: nat)
    requires Inv(v) && QuietTurn(v, x, w)
    ensures Inv(x)
  {
    QuietTurnFits(v, x, w);
    QuietTurnExclusive(v, x, w);
    forall i {:trigger EntryOk(x, i)} | 0 <= i < |x.given| ensures EntryOk(x, i) { assert EntryOk(v, i); }
    forall slot {:trigger SlotOk(x, slot)} | 0 <= slot < |x.Pending()| ensures SlotOk(x, slot) {
      QuietTurnSlots(v, x, w, slot);
    }
  }

  lemma DeliverFits(v: View, w: nat)
    requires Inv(v) && Sends(v, w)
    ensures WorkerOk(v, w) && Fits(Deliver(v, w)) && Exclusive(Deliver(v, w))
  {
    assert WorkerOk(v, w);
    var x := Deliver(v, w);
    assert Holds(v, w, v.workers[w].slot);
    forall y {:trigger WorkerOk(x, y)} | 0 <= y < |x.workers| ensures WorkerOk(x, y) {
      assert WorkerOk(v, y);
      assert Sends(v, y) ==> Holds(v, y, v.workers[y].slot);
    }
    forall y, z, slot {:trigger Holds(x, y, slot), Holds(x, z, slot)} | Holds(x, y, slot) && Holds(x, z, slot)
        ensures y == z {
      assert Holds(v, y, slot) && Holds(v, z, slot);
    }
  }

  lemma DeliverSlots(v: View, w: nat, slot: nat)
    requires Inv(v) && Sends(v, w) && slot < |v.Pending()|
    ensures WorkerOk(v, w) && SlotOk(Deliver(v, w), slot)
  {
    assert WorkerOk(v, w) && SlotOk(v, slot);
    if y :| y != w && Holds(v, y, slot) { assert Holds(Deliver(v, w), y, slot); }
  }

  lemma DeliverKeeps(v: View, w: nat)
    requires Inv(v) && Sends(v, w)
    ensures WorkerOk(v, w) && Inv(Deliver(v, w))
  {
    DeliverFits(v, w);
    var x := Deliver(v, w);
    var index := v.Pending()[v.workers[w].slot];
    FillingGrows(v.completed, index, FilePart(v.file, v.partSize, index));
    forall i {:trigger EntryOk(x, i)} | 0 <= i < |x.given| ensures EntryOk(x, i) { assert EntryOk(v, i); }
    forall slot {:trigger SlotOk(x, slot)} | 0 <= slot < |x.Pending()| ensures SlotOk(x, slot) {
      DeliverSlots(v, w, slot);
    }
  }

  lemma CancelKeeps(v: View)
    requires Inv(v)
    ensures Inv(v.(aborted := true))
  {
    var x := v.(aborted := true);
    forall y {:trigger WorkerOk(x, y)} | 0 <= y < |x.workers| ensures WorkerOk(x, y) { assert WorkerOk(v, y); }
    forall i {:trigger EntryOk(x, i)} | 0 <= i < |x.given| ensures EntryOk(x, i) { assert EntryOk(v, i); }
    forall slot {:trigger SlotOk(x, slot)} | 0 <= slot < |x.Pending()| ensures SlotOk(x, slot) {
      assert SlotOk(v, slot);
      if y :| Holds(v, y, slot) { assert Holds(x, y, slot); }
    }
    forall y, z, slot {:trigger Holds(x, y, slot), Holds(x, z, slot)} | Holds(x, y, slot) && Holds(x, z, slot)
        ensures y == z {
      assert Holds(v, y, slot) && Holds(v, z, slot);
    }
  }

  /** Every await of every worker keeps the invariant. */
  lemma ReactKeepsInv(v: View, e: Event)
    requires Inv(v)
    ensures Inv(React(v, e)) && |React(v, e).workers| == |v.workers| && React(v, e).given == v.given
  {
    match e
    case Cancel => CancelKeeps(v);
    case Turn(w, reply) =>
      if w < |v.workers| && v.workers[w] != Stopped {
        assert WorkerOk(v, w);
        if v.workers[w].Sending? && reply == Accepted { DeliverKeeps(v, w); }
        else { assert QuietTurn(v, React(v, e), w); QuietTurnKeeps(v, React(v, e), w); }
      }
  }

  /** When every worker has stopped and nothing failed, each missing part was sent exactly once. */
  lemma AllSent(v: View)
    requires Inv(v) && !v.aborted && forall w :: 0 <= w < |v.workers| ==> v.workers[w] == Stopped
    ensures forall i :: 0 <= i < |v.given| && v.given[i] == None ==>
            v.completed[i] == Some(FilePart(v.file, v.partSize, i))
    ensures v.finished == |v.completed| && multiset(v.sent) == multiset(v.Pending())
  {
    if v.workers != [] { assert WorkerOk(v, 0); }
    forall i | 0 <= i < |v.completed|
      ensures v.completed[i].Some?
      ensures (v.given[i] == None ==> v.completed[i] == Some(FilePart(v.file, v.partSize, i)) && i in v.sent)
    {
      assert EntryOk(v, i);
      if v.given[i] == None {
        assert i in v.Pending();
        var slot :| 0 <= slot < |v.Pending()| && v.Pending()[slot] == i;
        assert SlotOk(v, slot);
      }
    }
    FillingIsBounded(v.completed);
    SameElements(v.sent, v.Pending());
  }

  // -------------------------------------------------------------------- whole schedules

  predicate AllStopped(v: View) {
    forall w :: 0 <= w < |v.workers| ==> v.workers[w] == Stopped
  }

  /** How the pool ends: filled once every worker has stopped without a failure or a cancellation. */
  function EndOf(v: View): PoolEnd {
    if !AllStopped(v) then Unfinished
    else if v.firstFailure.Some? then Failed(v.firstFailure.value)
    else if v.aborted then Failed(Cancelled)
    else Filled
  }

  /** A pool before its first turn. */
  function Fresh(file: Bytes, partSize: nat, given: seq<Option<Part>>, concurrency: int, aborted: bool): View {
    var count := if concurrency < 1 then 1 else if concurrency < MAX_CONCURRENCY then concurrency else MAX_CONCURRENCY;
    var pending := |Missing(given)|;
    View(file, partSize, given, given, seq(if count < pending then count else pending, _ => Idle), 0, |given| - pending,
         None, aborted, [])
  }

  lemma FreshInv(file: Bytes, partSize: nat, given: seq<Option<Part>>, concurrency: int, aborted: bool)
    ensures Inv(Fresh(file, partSize, given, concurrency, aborted))
  {
  }

  /** The pool after all these events. */
  function Reacts(v: View, schedule: seq<Event>): View {
    if schedule == [] then v
    else
      var before := Reacts(v, schedule[..|schedule| - 1]);
      if Fits(before) then React(before, schedule[|schedule| - 1]) else before
  }

  lemma {:induction false} ReactsKeepsInv(v: View, schedule: seq<Event>)
    requires Inv(v)
    ensures Inv(Reacts(v, schedule)) && |Reacts(v, schedule).workers| == |v.workers|
    ensures Reacts(v, schedule).given == v.given
  {
    if schedule == [] {
    } else {
      ReactsKeepsInv(v, schedule[..|schedule| - 1]);
      ReactKeepsInv(Reacts(v, schedule[..|schedule| - 1]), schedule[|schedule| - 1]);
    }
  }

  lemma ReactsLast(v: View, schedule: seq<Event>, e: Event)
    requires Fits(Reacts(v, schedule))
    ensures Reacts(v, schedule + [e]) == React(Reacts(v, schedule), e)
  {
    assert (schedule + [e])[..|schedule|] == schedule;
  }

  lemma {:induction false} ReactsJoins(v: View, s: seq<Event>, t: seq<Event>)
    ensures Reacts(v, s + t) == Reacts(Reacts(v, s), t)
  {
    if t == [] {
      assert s + t == s;
    } else {
      var last := |t| - 1;
      ReactsJoins(v, s, t[..last]);
      assert (s + t)[..|s + t| - 1] == s + t[..last];
    }
  }

  // ------------------------------------------------------------ every pool comes to its end

  function Weight(w: Worker): nat {
    match w
    case Idle => 1
    case Sending(_, attempt) => if attempt < PART_ATTEMPTS then 2 + PART_ATTEMPTS - attempt else 2
    case Stopped => 0
  }

  function Weights(ws: seq<Worker>): nat {
    if ws == [] then 0 else Weights(ws[..|ws| - 1]) + Weight(ws[|ws| - 1])
  }

  lemma {:induction false} WeightsUpdate(ws: seq<Worker>, w: nat, x: Worker)
    requires w < |ws|
    ensures Weights(ws[w := x]) + Weight(ws[w]) == Weights(ws) + Weight(x)
  {
    var last := |ws| - 1;
    if w < last {
      WeightsUpdate(ws[..last], w, x);
      assert ws[w := x][..last] == ws[..last][w := x];
    } else {
      assert ws[w := x][..last] == ws[..last];
    }
  }

  /** A bound on the turns the pool still needs. */
  function Work(v: View): nat {
    Weights(v.workers) + (PART_ATTEMPTS + 1) * Untaken(v)
  }

  function Untaken(v: View): nat {
    if v.nextPending < |v.Pending()| then |v.Pending()| - v.nextPending else 0
  }

  /** The event is no turn of a worker at work. */
  predicate Idles(ws: seq<Worker>, e: Event) {
    e.Turn? && e.worker < |ws| ==> ws[e.worker] == Stopped
  }

  lemma WorkerAdvances(v: View, w: nat, reply: Reply)
    requires Fits(v) && w < |v.workers| && v.workers[w] != Stopped && WorkerOk(v, w)
    ensures var x := React(v, Turn(w, reply));
            && x.workers == v.workers[w := x.workers[w]]
            && Weight(x.workers[w]) + 5 * Untaken(x) < Weight(v.workers[w]) + 5 * Untaken(v)
  {
    if v.workers[w] == Idle {
      TakingAdvances(v, w);
    } else {
      SendingAdvances(v, w, reply);
    }
  }

  lemma TakingAdvances(v: View, w: nat)
    requires w < |v.workers| && v.workers[w] == Idle
    ensures var x := Take(v, w);
            && x.workers == v.workers[w := x.workers[w]]
            && Weight(x.workers[w]) + 5 * Untaken(x) < Weight(v.workers[w]) + 5 * Untaken(v)
  {
  }

  lemma SendingAdvances(v: View, w: nat, reply: Reply)
    requires Fits(v) && Sends(v, w) && WorkerOk(v, w)
    ensures var x := React(v, Turn(w, reply));
            && x.workers == v.workers[w := x.workers[w]] && Weight(x.workers[w]) < Weight(v.workers[w])
            && Untaken(x) == Untaken(v)
  {
  }

  /** A turn of a worker that has not stopped is progress, whatever is replied; any other changes no worker. */
  lemma TurnIsProgress(v: View, e: Event)
    requires Fits(v)
    ensures var x := React(v, e);
            if Idles(v.workers, e) then x.workers == v.workers && Work(x) == Work(v) else Work(x) < Work(v)
  {
    var x := React(v, e);
    if !Idles(v.workers, e) {
      assert WorkerOk(v, e.worker);
      WorkerAdvances(v, e.worker, e.reply);
      WeightsUpdate(v.workers, e.worker, x.workers[e.worker]);
    }
  }

  predicate AllIdle(ws: seq<Worker>, schedule: seq<Event>) {
    forall i :: 0 <= i < |schedule| ==> Idles(ws, schedule[i])
  }

  lemma AllIdleExtends(ws: seq<Worker>, schedule: seq<Event>)
    requires schedule != [] && AllIdle(ws, schedule[..|schedule| - 1]) && Idles(ws, schedule[|schedule| - 1])
    ensures AllIdle(ws, schedule)
  {
    forall i | 0 <= i < |schedule| ensures Idles(ws, schedule[i]) {
      if i < |schedule| - 1 { assert schedule[i] == schedule[..|schedule| - 1][i]; }
    }
  }

  lemma {:induction false} ScheduleIsProgress(v: View, schedule: seq<Event>)
    requires Inv(v)
    ensures Work(Reacts(v, schedule)) <= Work(v)
    ensures Work(Reacts(v, schedule)) == Work(v) ==>
            Reacts(v, schedule).workers == v.workers && AllIdle(v.workers, schedule)
  {
    if schedule == [] {
    } else {
      var last := |schedule| - 1;
      ScheduleIsProgress(v, schedule[..last]);
      ReactsKeepsInv(v, schedule[..last]);
      var x := Reacts(v, schedule[..last]);
      TurnIsProgress(x, schedule[last]);
      if Idles(x.workers, schedule[last]) && Work(x) == Work(v) { AllIdleExtends(v.workers, schedule); }
    }
  }

  /** Each of the `n` workers gets a turn. */
  predicate IsRound(round: seq<Event>, n: nat) {
    forall w: nat :: w < n ==> GetsTurn(round, w)
  }

  predicate GetsTurn(round: seq<Event>, w: nat) {
    exists i :: 0 <= i < |round| && round[i].Turn? && round[i].worker == w
  }

  predicate AreRounds(rounds: seq<seq<Event>>, n: nat) {
    forall k :: 0 <= k < |rounds| ==> IsRound(rounds[k], n)
  }

  function Flat(rounds: seq<seq<Event>>): seq<Event> {
    if rounds == [] then [] else rounds[0] + Flat(rounds[1..])
  }

  lemma RoundIsProgress(v: View, round: seq<Event>)
    requires Inv(v) && IsRound(round, |v.workers|) && !AllStopped(v)
    ensures Work(Reacts(v, round)) < Work(v)
  {
    ScheduleIsProgress(v, round);
    var w :| 0 <= w < |v.workers| && v.workers[w] != Stopped;
    assert GetsTurn(round, w);
    var i :| 0 <= i < |round| && round[i].Turn? && round[i].worker == w;
    assert !Idles(v.workers, round[i]);
  }

  lemma {:induction false} StoppedStays(v: View, schedule: seq<Event>)
    requires Inv(v) && AllStopped(v)
    ensures AllStopped(Reacts(v, schedule))
  {
    if schedule == [] {
    } else {
      StoppedStays(v, schedule[..|schedule| - 1]);
    }
  }

  /** Whatever the network replies and whoever cancels: after enough rounds every worker has stopped. */
  lemma {:induction false} EveryPoolStops(v: View, rounds: seq<seq<Event>>)
    requires Inv(v) && AreRounds(rounds, |v.workers|) && |rounds| >= Work(v)
    ensures AllStopped(Reacts(v, Flat(rounds)))
    decreases |rounds|
  {
    if AllStopped(v) {
      StoppedStays(v, Flat(rounds));
    } else {
      if rounds == [] {
        NoWorkLeft(v.workers);
      } else {
        RoundIsProgress(v, rounds[0]);
        ReactsKeepsInv(v, rounds[0]);
        EveryPoolStops(Reacts(v, rounds[0]), rounds[1..]);
        ReactsJoins(v, rounds[0], Flat(rounds[1..]));
      }
    }
  }

  lemma {:induction false} NoWorkLeft(ws: seq<Worker>)
    ensures Weights(ws) == 0 ==> forall w :: 0 <= w < |ws| ==> ws[w] == Stopped
  {
    if ws == [] {
    } else {
      NoWorkLeft(ws[..|ws| - 1]);
    }
  }

  // ------------------------------------------------------------------ what makes it fail

  /** The event ends the upload: a cancellation, or a reply after which its part is given up. */
  predicate GivesUp(v: View, e: Event) {
    match e
    case Cancel => true
    case Turn(w, reply) =>
      && Sends(v, w) && reply != Accepted
      && (v.aborted || reply != Retryable || v.workers[w].attempt >= PART_ATTEMPTS)
  }

  predicate NeverGivesUp(v: View, schedule: seq<Event>) {
    schedule == []
    || (NeverGivesUp(v, schedule[..|schedule| - 1])
        && !GivesUp(Reacts(v, schedule[..|schedule| - 1]), schedule[|schedule| - 1]))
  }

  lemma AbortedStep(v: View, e: Event)
    requires Fits(v)
    ensures React(v, e).aborted <==> v.aborted || GivesUp(v, e)
  {
  }

  /** A pool is aborted exactly if it was from the start or something gave up on the way. */
  lemma {:induction false} AbortedIff(v: View, schedule: seq<Event>)
    requires Inv(v)
    ensures !Reacts(v, schedule).aborted <==> !v.aborted && NeverGivesUp(v, schedule)
  {
    if schedule == [] {
    } else {
      AbortedIff(v, schedule[..|schedule| - 1]);
      ReactsKeepsInv(v, schedule[..|schedule| - 1]);
      AbortedStep(Reacts(v, schedule[..|schedule| - 1]), schedule[|schedule| - 1]);
    }
  }

  /** A pool given enough rounds is filled if and only if nobody cancels and no part is given up. */
  lemma PoolFillsIff(v: View, rounds: seq<seq<Event>>)
    requires Inv(v) && AreRounds(rounds, |v.workers|) && |rounds| >= Work(v)
    ensures EndOf(Reacts(v, Flat(rounds))) == Filled <==> !v.aborted && NeverGivesUp(v, Flat(rounds))
  {
    EveryPoolStops(v, rounds);
    AbortedIff(v, Flat(rounds));
    ReactsKeepsInv(v, Flat(rounds));
  }

  predicate AllAccepted(schedule: seq<Event>) {
    forall k :: 0 <= k < |schedule| ==> schedule[k].Turn? && schedule[k].reply == Accepted
  }

  /** So it is when every reply is good. */
  lemma AcceptedPoolFills(v: View, rounds: seq<seq<Event>>)
    requires Inv(v) && !v.aborted && AreRounds(rounds, |v.workers|) && |rounds| >= Work(v) && AllAccepted(Flat(rounds))
    ensures EndOf(Reacts(v, Flat(rounds))) == Filled
  {
    PoolFillsIff(v, rounds);
    AcceptedNeverGivesUp(v, Flat(rounds));
  }

  lemma {:induction false} AcceptedNeverGivesUp(v: View, schedule: seq<Event>)
    requires AllAccepted(schedule)
    ensures NeverGivesUp(v, schedule)
  {
    if schedule == [] {
    } else {
      AcceptedNeverGivesUp(v, schedule[..|schedule| - 1]);
    }
  }

  function Retries(w: nat, n: nat): seq<Event> {
    if n == 0 then [] else Retries(w, n - 1) + [Turn(w, Retryable)]
  }

  /** Where worker `w` is after it was told `n` times to try again. */
  predicate Retried(v: View, x: View, w: nat, n: nat)
    requires Sends(v, w)
  {
    if n < PART_ATTEMPTS then x == v.(workers := v.workers[w := Sending(v.workers[w].slot, n + 1)])
    else |x.workers| == |v.workers| && x.workers[w] == Stopped && x.firstFailure == Some(Broken)
  }

  lemma RetriedPart(v: View, x: View, w: nat, n: nat)
    requires Sends(v, w) && !v.aborted && v.firstFailure == None && 0 < n <= PART_ATTEMPTS
    requires Retried(v, x, w, n - 1) && Fits(x)
    ensures Retried(v, React(x, Turn(w, Retryable)), w, n)
  {
  }

  /** A part is tried four times: after up to three failures it is sent again, after the fourth it is given up. */
  lemma {:induction false} PartIsTriedFourTimes(v: View, w: nat, n: nat)
    requires Inv(v) && Sends(v, w) && v.workers[w].attempt == 1 && !v.aborted && n <= PART_ATTEMPTS
    ensures Retried(v, Reacts(v, Retries(w, n)), w, n)
  {
    if n == 0 {
    } else {
      PartIsTriedFourTimes(v, w, n - 1);
      ReactsKeepsInv(v, Retries(w, n - 1));
      ReactsLast(v, Retries(w, n - 1), Turn(w, Retryable));
      RetriedPart(v, Reacts(v, Retries(w, n - 1)), w, n);
    }
  }

  // ----------------------------------------------------------------- the shared state

  class Pool {
    const file: Bytes
    const partSize: nat
    const given: seq<Option<Part>>
    const completed: array<Option<Part>>
    var workers: seq<Worker>
    var nextPending: nat
    var finished: nat
    var firstFailure: Option<Trouble>
    var aborted: bool
    ghost var sent: seq<nat>

    ghost function Now(): View
      reads this, completed
    {
      View(file, partSize, given, completed[..], workers, nextPending, finished, firstFailure, aborted, sent)
    }

    constructor (file: Bytes, partSize: nat, completed: array<Option<Part>>, concurrency: int, aborted: bool)
      ensures this.completed == completed && given == completed[..] && |workers| <= MAX_CONCURRENCY
      ensures Now() == Fresh(file, partSize, completed[..], concurrency, aborted) && Inv(Now())
    {
      var count := if concurrency < 1 then 1 else if concurrency < MAX_CONCURRENCY then concurrency
          else MAX_CONCURRENCY;
      var pending := Missing(completed[..]);
      this.file, this.partSize, this.completed, this.given := file, partSize, completed, completed[..];
      this.workers := seq(if count < |pending| then count else |pending|, _ => Idle);
      this.nextPending, this.firstFailure, this.aborted, this.sent := 0, None, aborted, [];
      this.finished := completed.Length - |pending|;
      new;
      assert Now() == Fresh(file, partSize, completed[..], concurrency, aborted);
      FreshInv(file, partSize, completed[..], concurrency, aborted);
    }

    /** One turn of the event loop. */
    method Handle(e: Event)
      requires Inv(Now())
      modifies this, completed
      ensures Now() == React(old(Now()), e)
    {
      match e
      case Cancel => aborted := true;
      case Turn(w, reply) =>
        if w < |workers| && workers[w] != Stopped {
          assert WorkerOk(Now(), w);
          var pending := Missing(given);
          if workers[w] == Idle {
            if aborted {
              workers := workers[w := Stopped];
            } else {
              var slot := nextPending;
              nextPending := nextPending + 1;
              workers := workers[w := if slot >= |pending| then Stopped else Sending(slot, 1)];
            }
          } else if reply == Accepted {
            var index := pending[workers[w].slot];
            completed[index] := Some(FilePart(file, partSize, index));
            finished := finished + 1;
            sent := sent + [index];
            workers := workers[w := Idle];
          } else if !aborted && reply == Retryable && workers[w].attempt < PART_ATTEMPTS {
            workers := workers[w := Sending(workers[w].slot, workers[w].attempt + 1)];
          } else {
            if firstFailure == None { firstFailure := Some(if aborted then Cancelled else Broken); }
            aborted := true;
            workers := workers[w := Stopped];
          }
        }
    }

    /**
      Under every schedule a pool that ends well has filled every entry, left the given ones
      alone and sent each missing part of the file exactly once.
     */
    method Run(schedule: seq<Event>) returns (end: PoolEnd)
      requires Inv(Now())
      modifies this, completed
      ensures Now() == Reacts(old(Now()), schedule) && end == EndOf(Now()) && finished <= completed.Length
      ensures forall i :: 0 <= i < completed.Length && given[i].Some? ==> completed[i] == given[i]
      ensures end == Filled ==> forall i :: 0 <= i < completed.Length && given[i] == None ==>
              completed[i] == Some(FilePart(file, partSize, i))
      ensures end == Filled ==> finished == completed.Length && multiset(sent) == multiset(Missing(given))
    {
      for k := 0 to |schedule|
        invariant Now() == Reacts(old(Now()), schedule[..k])
      {
        assert schedule[..k + 1][..k] == schedule[..k];
        ReactsKeepsInv(old(Now()), schedule[..k]);
        Handle(schedule[k]);
      }
      assert schedule[..|schedule|] == schedule;
      ReactsKeepsInv(old(Now()), schedule);
      FillingIsBounded(completed[..]);
      forall i | 0 <= i < completed.Length && given[i].Some?
          ensures completed[i] == given[i] { assert EntryOk(Now(), i); }
      if exists w :: 0 <= w < |workers| && workers[w] != Stopped { return Unfinished; }
      if firstFailure.Some? { return Failed(firstFailure.value); }
      if aborted { return Failed(Cancelled); }
      AllSent(Now());
      return Filled;
    }
  }
}
