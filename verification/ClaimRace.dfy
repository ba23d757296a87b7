/** The claim protocol of the filesystem queue at the grain of its file operations: workers scan,
    read, rename and rewrite with no lock, while other operations go on. */
module ClaimRace {

  /** Where one worker is inside `claim`; `todo` is the rest of its sorted scan. */
  datatype WorkerPc =
    | Idle
    | Scanning(todo: seq<string>)
    | HasRead(id: string, todo: seq<string>)
    | Unreadable(id: string, todo: seq<string>)      // read found no file: check whether it exists
    | Discarding(id: string, todo: seq<string>)      // it did: about to move it to `failed`
    | Rewriting(id: string)                          // renamed into `claimed`
    | Returned(id: string)
    | Died

  /** The folders by file name, what each worker is doing, and what has happened so far. */
  datatype Race = Race(
    queued: set<string>, claimed: set<string>, settled: set<string>,
    workers: map<nat, WorkerPc>,
    accepted: set<string>,             // ever enqueued
    renames: map<string, nat>,         // renames into `claimed` by claims, per job
    requeues: map<string, nat>,        // moves back to `queued` by recovery, per job
    handouts: map<string, nat>)        // claims that returned the job

  datatype Event =
    | Begin(worker: nat, listing: seq<string>)
    | Read(worker: nat)
    | Rename(worker: nat)
    | Recheck(worker: nat)
    | Discard(worker: nat)
    | Rewrite(worker: nat)
    | Leave(worker: nat)
    | Kill(worker: nat)
    | Enqueue(id: string)
    | Settle(id: string)               // complete, fail or recovery of a finished run
    | Cancel(id: string)
    | Requeue(id: string)

  function Count(m: map<string, nat>, id: string): nat {
    if id in m then m[id] else 0
  }

  function Bump(m: map<string, nat>, id: string): map<string, nat> {
    m[id := Count(m, id) + 1]
  }

  function Advance(r: Race, w: nat, pc: WorkerPc): Race {
    r.(workers := r.workers[w := pc])
  }

  function PcOf(r: Race, w: nat): WorkerPc {
    if w in r.workers then r.workers[w] else Idle
  }

  /** One file operation; an event that is not enabled changes nothing. */
  function Step(r: Race, e: Event): Race {
    match e
    case Begin(w, listing) =>
      if PcOf(r, w).Idle? && (forall i :: 0 <= i < |listing| ==> listing[i] in r.queued)
      then Advance(r, w, Scanning(listing)) else r
    case Read(w) =>
      if PcOf(r, w).Scanning? && PcOf(r, w).todo != [] then
        var id, rest := PcOf(r, w).todo[0], PcOf(r, w).todo[1..];
        Advance(r, w, if id in r.queued then HasRead(id, rest) else Unreadable(id, rest))
      else r
    case Rename(w) =>
      if PcOf(r, w).HasRead? then
        var id := PcOf(r, w).id;
        if id in r.queued then
          Advance(r, w, Rewriting(id)).(queued := r.queued - {id}, claimed := r.claimed + {id},
                                        renames := Bump(r.renames, id))
        else Advance(r, w, Scanning(PcOf(r, w).todo))
      else r
    case Recheck(w) =>
      if PcOf(r, w).Unreadable? then
        var id, rest := PcOf(r, w).id, PcOf(r, w).todo;
        Advance(r, w, if id in r.queued then Discarding(id, rest) else Scanning(rest))
      else r
    case Discard(w) =>
      if PcOf(r, w).Discarding? then
        var id, rest := PcOf(r, w).id, PcOf(r, w).todo;
        if id in r.settled then Advance(r, w, Scanning(rest)).(queued := r.queued - {id})
        else if id in r.queued then
          Advance(r, w, Scanning(rest)).(queued := r.queued - {id}, settled := r.settled + {id})
        else Advance(r, w, Died)
      else r
    case Rewrite(w) =>
      if PcOf(r, w).Rewriting? then
        var id := PcOf(r, w).id;
        Advance(r, w, Returned(id)).(claimed := r.claimed + {id}, handouts := Bump(r.handouts, id))
      else r
    case Leave(w) =>
      if PcOf(r, w).Returned? || (PcOf(r, w).Scanning? && PcOf(r, w).todo == []) then Advance(r, w, Idle) else r
    case Kill(w) => if w in r.workers then Advance(r, w, Died) else r
    case Enqueue(id) =>
      if id in r.accepted then r else r.(queued := r.queued + {id}, accepted := r.accepted + {id})
    case Settle(id) =>
      if id in r.claimed then r.(claimed := r.claimed - {id}, settled := r.settled + {id}) else r
    case Cancel(id) =>
      if id in r.queued then r.(queued := r.queued - {id}, settled := r.settled + {id})
      else if id in r.claimed then r.(claimed := r.claimed - {id}, settled := r.settled + {id})
      else r
    case Requeue(id) =>
      if id in r.claimed
      then r.(claimed := r.claimed - {id}, queued := r.queued + {id}, requeues := Bump(r.requeues, id))
      else r
  }

  const START := Race({}, {}, {}, map[], {}, map[], map[], map[])

  function After(events: seq<Event>): Race {
    if events == [] then START else Step(After(events[..|events| - 1]), events[|events| - 1])
  }

  // ---------------------------------------------------------------- tickets

  /** Workers between the rename of this job and the rewrite of its record. */
  ghost function Rewriters(r: Race, id: string): set<nat> {
    set w | w in r.workers && r.workers[w] == Rewriting(id)
  }

  function Ticket(held: bool): nat {
    if held then 1 else 0
  }

  /** Acceptance and each requeue issue one ticket; a file in `queued` holds one, a rename spends
      one, and each return follows a rename of its own. */
  ghost predicate TicketsOk(r: Race, id: string) {
    && Count(r.renames, id) + Ticket(id in r.queued) <= Ticket(id in r.accepted) + Count(r.requeues, id)
    && Count(r.handouts, id) + |Rewriters(r, id)| <= Count(r.renames, id)
    && (id in r.queued || id in r.claimed || id in r.settled || Count(r.renames, id) > 0 ==> id in r.accepted)
  }

  ghost predicate Listed(r: Race, todo: seq<string>) {
    forall i :: 0 <= i < |todo| ==> todo[i] in r.accepted
  }

  /** A worker that missed a listed file knows a job that has left `queued`: only a requeue brings
      it back. */
  ghost predicate WorkerOk(r: Race, pc: WorkerPc) {
    match pc
    case Scanning(todo) => Listed(r, todo)
    case HasRead(id, todo) => id in r.accepted && Listed(r, todo)
    case Unreadable(id, todo) =>
      id in r.accepted && (id in r.queued ==> Count(r.requeues, id) > 0) && Listed(r, todo)
    case Discarding(id, todo) => id in r.accepted && Count(r.requeues, id) > 0 && Listed(r, todo)
    case _ => true
  }

  ghost predicate RaceInv(r: Race) {
    && (forall id :: TicketsOk(r, id))
    && (forall w :: w in r.workers ==> WorkerOk(r, r.workers[w]))
  }

  // ---------------------------------------------------------------- every file operation keeps them

  lemma CountBump(m: map<string, nat>, id: string, x: string)
    ensures Count(Bump(m, id), x) == Count(m, x) + Ticket(x == id)
  {
  }

  lemma RewritersAdvance(r: Race, r': Race, w: nat, pc: WorkerPc, id: string)
    requires r'.workers == r.workers[w := pc]
    ensures |Rewriters(r', id)| + Ticket(PcOf(r, w) == Rewriting(id)) == |Rewriters(r, id)| + Ticket(pc == Rewriting(id))
  {
    var rest := Rewriters(r, id) - {w};
    assert Rewriters(r, id) == if PcOf(r, w) == Rewriting(id) then rest + {w} else rest;
    assert Rewriters(r', id) == if pc == Rewriting(id) then rest + {w} else rest;
  }

  lemma RewritersKept(r: Race, e: Event, id: string)
    ensures var r' := Step(r, e);
            if r'.workers == r.workers then |Rewriters(r', id)| == |Rewriters(r, id)|
            else && e.worker in r'.workers
                 && |Rewriters(r', id)| + Ticket(PcOf(r, e.worker) == Rewriting(id))
                    == |Rewriters(r, id)| + Ticket(r'.workers[e.worker] == Rewriting(id))
  {
    hide Rewriters, Count, Bump;
    var r' := Step(r, e);
    if r'.workers != r.workers {
      var w := e.worker;
      assert r'.workers == r.workers[w := r'.workers[w]];
      RewritersAdvance(r, r', w, r'.workers[w], id);
    } else {
      SameRewriters(r, r', id);
    }
  }

  predicate FilesOnly(e: Event) {
    e.Enqueue? || e.Settle? || e.Cancel? || e.Requeue?
  }

  lemma FileTicketsKept(r: Race, e: Event, id: string)
    requires TicketsOk(r, id) && FilesOnly(e)
    ensures TicketsOk(Step(r, e), id)
  {
    hide Rewriters, Count, Bump;
    SameRewriters(r, Step(r, e), id);
    if e.Requeue? {
      CountBump(r.requeues, e.id, id);
    }
  }

  lemma WorkerTicketsKept(r: Race, e: Event, id: string)
    requires TicketsOk(r, id) && !FilesOnly(e)
    ensures TicketsOk(Step(r, e), id)
  {
    hide Rewriters, Count, Bump;
    RewritersKept(r, e, id);
    if e.Rename? && PcOf(r, e.worker).HasRead? {
      CountBump(r.renames, PcOf(r, e.worker).id, id);
    } else if e.Rewrite? && PcOf(r, e.worker).Rewriting? {
      CountBump(r.handouts, PcOf(r, e.worker).id, id);
    }
  }

  lemma SameRewriters(r: Race, r': Race, id: string)
    requires r'.workers == r.workers
    ensures Rewriters(r', id) == Rewriters(r, id)
  {
  }

  /** The worker whose file operation this is. */
  lemma ActingWorkerKept(r: Race, e: Event, w: nat)
    requires RaceInv(r) && w in Step(r, e).workers
    requires w in r.workers ==> r.workers[w] != Step(r, e).workers[w]
    ensures WorkerOk(Step(r, e), Step(r, e).workers[w])
  {
    hide Rewriters, Count, TicketsOk, Bump;
    QueuedAccepted(r);
    Monotone(r, e);
  }

  lemma QueuedAccepted(r: Race)
    requires RaceInv(r)
    ensures r.queued <= r.accepted
  {
    hide WorkerOk, Rewriters, Count;
    forall id | id in r.queued ensures id in r.accepted {
      assert TicketsOk(r, id);
    }
  }

  lemma WorkerKept(r: Race, e: Event, w: nat)
    requires RaceInv(r) && w in Step(r, e).workers
    ensures WorkerOk(Step(r, e), Step(r, e).workers[w])
  {
    hide TicketsOk, WorkerOk, Count;
    if w in r.workers && Step(r, e).workers[w] == r.workers[w] {
      WorkerStays(r, Step(r, e), r.workers[w], e);
    } else {
      ActingWorkerKept(r, e, w);
    }
  }

  /** What a worker knows stays true whatever happens next to the files. */
  lemma WorkerStays(r: Race, r': Race, pc: WorkerPc, e: Event)
    requires WorkerOk(r, pc) && r' == Step(r, e)
    ensures WorkerOk(r', pc)
  {
    Monotone(r, e);
  }

  lemma Monotone(r: Race, e: Event)
    ensures var r' := Step(r, e);
            && r.accepted <= r'.accepted
            && (forall id :: Count(r.requeues, id) <= Count(r'.requeues, id))
            && (forall id :: id in r'.queued && id !in r.queued && id in r.accepted ==> Count(r'.requeues, id) > 0)
  {
  }

  lemma StepKeeps(r: Race, e: Event)
    requires RaceInv(r)
    ensures RaceInv(Step(r, e))
  {
    hide TicketsOk, WorkerOk, Step, FilesOnly;
    forall id ensures TicketsOk(Step(r, e), id) {
      if FilesOnly(e) {
        FileTicketsKept(r, e, id);
      } else {
        WorkerTicketsKept(r, e, id);
      }
    }
    forall w | w in Step(r, e).workers ensures WorkerOk(Step(r, e), Step(r, e).workers[w]) {
      WorkerKept(r, e, w);
    }
  }

  lemma {:induction false} AlwaysInv(events: seq<Event>)
    ensures RaceInv(After(events))
  {
    hide Step;
    if events == [] {
      forall id ensures TicketsOk(START, id) {
        assert Rewriters(START, id) == {};
      }
    } else {
      AlwaysInv(events[..|events| - 1]);
      StepKeeps(After(events[..|events| - 1]), events[|events| - 1]);
    }
  }

  // ---------------------------------------------------------------- main results

  /** Exclusive claim: however the workers' file operations interleave with everything else, the
      claims that return a job never exceed one plus its number of requeues, counting the workers
      about to return it; so without recovery each job is returned by at most one claim. */
  lemma ExclusiveClaim(events: seq<Event>, id: string)
    ensures var r := After(events);
            && Count(r.handouts, id) + |Rewriters(r, id)| <= 1 + Count(r.requeues, id)
            && (id !in r.accepted ==> Count(r.handouts, id) == 0)
  {
    hide Rewriters, Count;
    AlwaysInv(events);
    assert TicketsOk(After(events), id);
  }

  /** The handler for unreadable files sets a healthy job aside only if recovery requeued it. */
  lemma DiscardNeedsRequeue(events: seq<Event>, w: nat)
    requires PcOf(After(events), w).Discarding?
    ensures Count(After(events).requeues, PcOf(After(events), w).id) > 0
  {
    hide TicketsOk;
    AlwaysInv(events);
    assert WorkerOk(After(events), PcOf(After(events), w));
  }

  lemma AfterNext(events: seq<Event>, e: Event)
    ensures After(events + [e]) == Step(After(events), e)
  {
    assert (events + [e])[..|events|] == events;
  }

  /** Some worker number is above all that are taken. */
  lemma {:induction false} NewWorker(taken: set<nat>) returns (w: nat)
    ensures forall x :: x in taken ==> x < w
  {
    w := 0;
    if taken != {} {
      var x :| x in taken;
      var rest := NewWorker(taken - {x});
      w := if x < rest then rest else x + 1;
      assert forall y :: y in taken ==> y == x || y in taken - {x};
    }
  }

  /** Two new workers list a waiting job; one reads and renames it before the other reads. */
  lemma MissedFile(r: Race, id: string, a: nat, b: nat) returns (r': Race)
    requires id in r.queued && a != b && a !in r.workers && b !in r.workers
    ensures r' == Step(Step(Step(Step(Step(r, Begin(a, [id])), Begin(b, [id])), Read(b)), Rename(b)), Read(a))
    ensures PcOf(r', a) == Unreadable(id, []) && PcOf(r', b) == Rewriting(id) && id !in r'.queued
  {
    var r1 := Step(r, Begin(a, [id]));
    var r2 := Step(r1, Begin(b, [id]));
    assert [id][1..] == [];
    assert r2 == r.(workers := r.workers[a := Scanning([id])][b := Scanning([id])]);
    var r3 := Step(r2, Read(b));
    assert PcOf(r3, b) == HasRead(id, []) && PcOf(r3, a) == Scanning([id]) && r3.queued == r.queued;
    var r4 := Step(r3, Rename(b));
    assert PcOf(r4, b) == Rewriting(id) && PcOf(r4, a) == Scanning([id]) && id !in r4.queued;
    r' := Step(r4, Read(a));
  }

  /** The renamed job is claimed, requeued and found again by the one that missed it. */
  lemma FoundAgain(r: Race, id: string, a: nat, b: nat) returns (r': Race)
    requires a != b && PcOf(r, a) == Unreadable(id, []) && PcOf(r, b) == Rewriting(id) && id !in r.queued
    ensures r' == Step(Step(Step(r, Rewrite(b)), Requeue(id)), Recheck(a))
    ensures id in r'.queued && PcOf(r', a) == Discarding(id, [])
  {
    var r1 := Step(r, Rewrite(b));
    assert id in r1.claimed && PcOf(r1, a) == Unreadable(id, []);
    var r2 := Step(r1, Requeue(id));
    assert id in r2.queued && PcOf(r2, a) == Unreadable(id, []);
    r' := Step(r2, Recheck(a));
  }

  /** From any reachable state in which a job waits, healthy as its record is, some continuation in
      which recovery requeues it ends with a worker setting it aside. */
  lemma WaitingJobCanBeDiscarded(events: seq<Event>, id: string)
    requires id in After(events).queued
    ensures exists more: seq<Event>, w: nat ::
              && PcOf(After(events + more), w) == Discarding(id, []) && id in After(events + more).queued
              && id in After(events + more + [Discard(w)]).settled
              && id !in After(events + more + [Discard(w)]).queued
  {
    hide Step;
    var r := After(events);
    var a := NewWorker(r.workers.Keys);
    var b := NewWorker(r.workers.Keys + {a});
    var r5 := MissedFile(r, id, a, b);
    var r8 := FoundAgain(r5, id, a, b);
    var more := [] + [Begin(a, [id])] + [Begin(b, [id])] + [Read(b)] + [Rename(b)] + [Read(a)] + [Rewrite(b)]
                + [Requeue(id)] + [Recheck(a)];
    EightMore(events, more);
    AfterNext(events + more, Discard(a));
    SetAside(r8, id, a);
    assert PcOf(After(events + more), a) == Discarding(id, []);
  }

  /** So it can happen to a job that has only just been enqueued. */
  lemma RequeuedJobCanBeDiscarded(id: string)
    ensures exists events: seq<Event>, w: nat ::
              && id in After(events).queued && id in After(events + [Discard(w)]).settled
              && id !in After(events + [Discard(w)]).queued
  {
    var listed := [Enqueue(id)];
    AfterNext([], Enqueue(id));
    assert [] + [Enqueue(id)] == listed;
    WaitingJobCanBeDiscarded(listed, id);
    var more: seq<Event>, w: nat :|
      && PcOf(After(listed + more), w) == Discarding(id, []) && id in After(listed + more).queued
      && id in After(listed + more + [Discard(w)]).settled
      && id !in After(listed + more + [Discard(w)]).queued;
    assert id in After(listed + more).queued;
  }

  lemma SetAside(r: Race, id: string, w: nat)
    requires PcOf(r, w) == Discarding(id, []) && id in r.queued
    ensures id in Step(r, Discard(w)).settled && id !in Step(r, Discard(w)).queued
  {
  }

  /** Eight more events, one after the other. */
  lemma EightMore(events: seq<Event>, more: seq<Event>)
    requires |more| == 8
    ensures After(events + more) == Step(Step(Step(Step(Step(Step(Step(Step(After(events), more[0]), more[1]), more[2]),
                                                                  more[3]), more[4]), more[5]), more[6]), more[7])
  {
    hide Step;
    OneMore(events, more, 0);
    OneMore(events, more, 1);
    OneMore(events, more, 2);
    OneMore(events, more, 3);
    OneMore(events, more, 4);
    OneMore(events, more, 5);
    OneMore(events, more, 6);
    OneMore(events, more, 7);
    assert events + more[..0] == events && more[..8] == more;
  }

  lemma OneMore(events: seq<Event>, more: seq<Event>, n: nat)
    requires n < |more|
    ensures After(events + more[..n + 1]) == Step(After(events + more[..n]), more[n])
  {
    assert events + more[..n + 1] == (events + more[..n]) + [more[n]];
    AfterNext(events + more[..n], more[n]);
  }
}
