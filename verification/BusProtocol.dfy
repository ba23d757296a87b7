/** Many workers draining one peek-lock queue at once, with locks expiring and workers dying. */
module BusProtocol {
  import opened Outcomes
  import opened Contract
  import opened Jobs
  import opened ServiceBus

  /** One worker's claim: how many messages it has received and settled, and what it holds. */
  datatype Consumer =
    | Idle
    | Draining(received: nat, settled: nat)
    | Holding(k: nat, deliveries: nat, received: nat, settled: nat)
    | Executing(k: nat, received: nat, settled: nat)
    | Gone

  /** `handouts[k]` counts how often message `k` was returned by some claim. */
  datatype Bus = Bus(messages: seq<Message>, handouts: seq<nat>, runs: map<string, RunStatus>,
                     workers: map<nat, Consumer>)

  datatype Event =
    | Send(body: Option<ExecutionJob>)
    | Begin(worker: nat)
    | Receive(worker: nat)
    | Decide(worker: nat)
    | Finish(worker: nat)
    | Die(worker: nat)
    | Expire(message: nat)
    | Record(runId: string, status: RunStatus)

  function StateOf(b: Bus, w: nat): Consumer {
    if w in b.workers then b.workers[w] else Idle
  }

  function Put(b: Bus, w: nat, c: Consumer): Bus {
    b.(workers := b.workers[w := c])
  }

  function StatusIn(b: Bus): StatusOf {
    (runId: string) => if runId in b.runs then Some(b.runs[runId]) else None
  }

  /** One broker operation; an event that is not enabled changes nothing. */
  function Step(maxDelivery: int, b: Bus, e: Event): Bus {
    match e
    case Send(body) => b.(messages := b.messages + [Message(body, 0, Available)], handouts := b.handouts + [0])
    case Begin(w) => if StateOf(b, w).Idle? then Put(b, w, Draining(0, 0)) else b
    case Receive(w) =>
      if !StateOf(b, w).Draining? then b
      else
        var c := StateOf(b, w);
        var k := FirstAvailable(b.messages, 0);
        if c.received >= DRAIN_LIMIT || k.None? || k.value >= |b.messages| then Put(b, w, Idle)
        else
          var m := Received(b.messages[k.value]);
          Put(b, w, Holding(k.value, m.deliveryCount, c.received + 1, c.settled)).(messages := b.messages[k.value := m])
    case Decide(w) =>
      if !StateOf(b, w).Holding? || StateOf(b, w).k >= |b.messages| || StateOf(b, w).k >= |b.handouts| then b
      else
        var c := StateOf(b, w);
        var m := b.messages[c.k];
        var how := Dispose(m, c.deliveries, StatusIn(b), maxDelivery);
        if how.HandOut? then
          Put(b, w, Executing(c.k, c.received, c.settled)).(handouts := b.handouts[c.k := b.handouts[c.k] + 1])
        else Put(b, w, Draining(c.received, c.settled + 1)).(messages := b.messages[c.k := Settled(m, how)])
    case Finish(w) =>
      if !StateOf(b, w).Executing? || StateOf(b, w).k >= |b.messages| then b
      else
        var k := StateOf(b, w).k;
        Put(b, w, Idle).(messages := b.messages[k := b.messages[k].(state := Completed)])
    case Die(w) => Put(b, w, Gone)
    case Expire(k) =>
      if k < |b.messages| && b.messages[k].state.Locked?
      then b.(messages := b.messages[k := b.messages[k].(state := Available)]) else b
    case Record(runId, status) =>
      if runId in b.runs && b.runs[runId].IsTerminal() then b else b.(runs := b.runs[runId := status])
  }

  const START := Bus([], [], map[], map[])

  function After(maxDelivery: int, events: seq<Event>, n: nat): Bus
    requires n <= |events|
  {
    if n == 0 then START else Step(maxDelivery, After(maxDelivery, events, n - 1), events[n - 1])
  }

  // ---------------------------------------------------------------- invariants

  function Cap(deliveries: nat, maxDelivery: int): nat {
    if deliveries <= maxDelivery then deliveries else if maxDelivery < 0 then 0 else maxDelivery
  }

  predicate Hopeful(c: Consumer, k: nat, maxDelivery: int) {
    c.Holding? && c.k == k && c.deliveries <= maxDelivery
  }

  /** Workers that hold message `k` on a delivery they may still hand out. */
  ghost function Holders(b: Bus, k: nat, maxDelivery: int): set<nat> {
    set w | w in b.workers && Hopeful(b.workers[w], k, maxDelivery)
  }

  /** Each of the first `maxDelivery` deliveries is worth one hand-out. */
  ghost predicate MessageOk(b: Bus, k: nat, maxDelivery: int)
    requires k < |b.messages| && |b.handouts| == |b.messages|
  {
    b.handouts[k] + |Holders(b, k, maxDelivery)| <= Cap(b.messages[k].deliveryCount, maxDelivery)
  }

  /** Every message a claim has received is settled, except the one it holds or has returned. */
  predicate ConsumerOk(c: Consumer, messages: nat) {
    match c
    case Draining(received, settled) => received == settled <= DRAIN_LIMIT
    case Holding(k, _, received, settled) => k < messages && received == settled + 1 <= DRAIN_LIMIT
    case Executing(k, received, settled) => k < messages && received == settled + 1 <= DRAIN_LIMIT
    case _ => true
  }

  ghost predicate BusInv(b: Bus, maxDelivery: int) {
    && |b.handouts| == |b.messages|
    && (forall k :: 0 <= k < |b.messages| ==> MessageOk(b, k, maxDelivery))
    && (forall w :: w in b.workers ==> ConsumerOk(b.workers[w], |b.messages|))
  }

  function One(held: bool): nat {
    if held then 1 else 0
  }

  lemma HoldersPut(b: Bus, b': Bus, w: nat, c: Consumer, k: nat, maxDelivery: int)
    requires b'.workers == b.workers[w := c]
    ensures |Holders(b', k, maxDelivery)| + One(Hopeful(StateOf(b, w), k, maxDelivery))
         == |Holders(b, k, maxDelivery)| + One(Hopeful(c, k, maxDelivery))
  {
    var rest := Holders(b, k, maxDelivery) - {w};
    assert Holders(b, k, maxDelivery) == if Hopeful(StateOf(b, w), k, maxDelivery) then rest + {w} else rest;
    assert Holders(b', k, maxDelivery) == if Hopeful(c, k, maxDelivery) then rest + {w} else rest;
  }

  lemma SameHolders(b: Bus, b': Bus, k: nat, maxDelivery: int)
    requires b'.workers == b.workers
    ensures Holders(b', k, maxDelivery) == Holders(b, k, maxDelivery)
  {
  }

  /** Nobody holds a message that does not exist yet. */
  lemma NoHolders(b: Bus, maxDelivery: int)
    requires BusInv(b, maxDelivery)
    ensures Holders(b, |b.messages|, maxDelivery) == {}
  {
  }

  lemma MessageKept(maxDelivery: int, b: Bus, e: Event, k: nat)
    requires BusInv(b, maxDelivery) && k < |Step(maxDelivery, b, e).messages|
    ensures |Step(maxDelivery, b, e).handouts| == |Step(maxDelivery, b, e).messages|
    ensures MessageOk(Step(maxDelivery, b, e), k, maxDelivery)
  {
    hide Holders, FirstAvailable, ConsumerOk;
    var b' := Step(maxDelivery, b, e);
    NoHolders(b, maxDelivery);
    if b'.workers != b.workers {
      HoldersPut(b, b', e.worker, b'.workers[e.worker], k, maxDelivery);
    } else {
      SameHolders(b, b', k, maxDelivery);
    }
    assert k < |b.messages| ==> MessageOk(b, k, maxDelivery);
  }

  lemma ConsumerKept(maxDelivery: int, b: Bus, e: Event, w: nat)
    requires BusInv(b, maxDelivery) && w in Step(maxDelivery, b, e).workers
    ensures ConsumerOk(Step(maxDelivery, b, e).workers[w], |Step(maxDelivery, b, e).messages|)
  {
    hide MessageOk, FirstAvailable;
  }

  lemma StepKeeps(maxDelivery: int, b: Bus, e: Event)
    requires BusInv(b, maxDelivery)
    ensures BusInv(Step(maxDelivery, b, e), maxDelivery)
  {
    hide Step, MessageOk, ConsumerOk;
    var b' := Step(maxDelivery, b, e);
    LengthsKept(maxDelivery, b, e);
    forall k | 0 <= k < |b'.messages| ensures MessageOk(b', k, maxDelivery) {
      MessageKept(maxDelivery, b, e, k);
    }
    forall w | w in b'.workers ensures ConsumerOk(b'.workers[w], |b'.messages|) {
      ConsumerKept(maxDelivery, b, e, w);
    }
  }

  lemma LengthsKept(maxDelivery: int, b: Bus, e: Event)
    requires |b.handouts| == |b.messages|
    ensures |Step(maxDelivery, b, e).handouts| == |Step(maxDelivery, b, e).messages| >= |b.messages|
  {
    hide FirstAvailable;
  }

  lemma {:induction false} AlwaysOk(maxDelivery: int, events: seq<Event>, n: nat)
    requires n <= |events|
    ensures BusInv(After(maxDelivery, events, n), maxDelivery)
  {
    hide Step;
    if n > 0 {
      AlwaysOk(maxDelivery, events, n - 1);
      StepKeeps(maxDelivery, After(maxDelivery, events, n - 1), events[n - 1]);
    }
  }

  // ---------------------------------------------------------------- main results

  /** However claims, expiries and crashes interleave, no message is handed out more often than the
      delivery limit, or than it was delivered. */
  lemma HandoutsBounded(maxDelivery: int, events: seq<Event>, n: nat, k: nat)
    requires n <= |events| && k < |After(maxDelivery, events, n).messages|
    ensures var b := After(maxDelivery, events, n);
            && |b.handouts| == |b.messages|
            && b.handouts[k] <= Cap(b.messages[k].deliveryCount, maxDelivery)
            && (b.handouts[k] > 0 ==> b.handouts[k] <= maxDelivery)
  {
    AlwaysOk(maxDelivery, events, n);
    assert MessageOk(After(maxDelivery, events, n), k, maxDelivery);
  }

  /** Each claim receives at most sixteen messages, and every one it received is settled, except
      the single one it is deciding on or has returned. */
  lemma ReceiptsAccounted(maxDelivery: int, events: seq<Event>, n: nat, w: nat)
    requires n <= |events| && w in After(maxDelivery, events, n).workers
    ensures ConsumerOk(After(maxDelivery, events, n).workers[w], |After(maxDelivery, events, n).messages|)
  {
    hide ConsumerOk;
    AlwaysOk(maxDelivery, events, n);
  }

  /** A job whose run is finished, now and from now on. */
  predicate Finished(b: Bus, k: nat) {
    && k < |b.messages| && b.messages[k].body.Some?
    && b.messages[k].body.value.runId in b.runs && b.runs[b.messages[k].body.value.runId].IsTerminal()
  }

  lemma FinishedStep(maxDelivery: int, b: Bus, e: Event, k: nat)
    requires BusInv(b, maxDelivery) && Finished(b, k)
    ensures var b' := Step(maxDelivery, b, e);
            Finished(b', k) && |b'.handouts| >= |b.handouts| && b'.handouts[k] == b.handouts[k]
  {
    hide MessageOk, ConsumerOk, FirstAvailable;
  }

  /** Once its run is finished, a message is never handed out again: later deliveries drain it. */
  lemma {:induction false} FinishedNeverHandedOut(maxDelivery: int, events: seq<Event>, i: nat, j: nat, k: nat)
    requires i <= j <= |events| && Finished(After(maxDelivery, events, i), k)
    ensures Finished(After(maxDelivery, events, j), k)
    ensures k < |After(maxDelivery, events, i).handouts| && k < |After(maxDelivery, events, j).handouts|
    ensures After(maxDelivery, events, j).handouts[k] == After(maxDelivery, events, i).handouts[k]
    decreases j
  {
    hide Step, Finished, MessageOk, ConsumerOk;
    AlwaysOk(maxDelivery, events, i);
    FinishedInRange(After(maxDelivery, events, i), k);
    if i < j {
      FinishedNeverHandedOut(maxDelivery, events, i, j - 1, k);
      AlwaysOk(maxDelivery, events, j - 1);
      FinishedStep(maxDelivery, After(maxDelivery, events, j - 1), events[j - 1], k);
    }
  }

  lemma FinishedInRange(b: Bus, k: nat)
    requires Finished(b, k)
    ensures k < |b.messages|
  {
  }

  // ---------------------------------------------------------------- one claim on its own

  /** What worker `w`, draining, does when nobody comes between: receive and decide, until it holds a
      job, finds nothing, or has no receive left. */
  function Solo(maxDelivery: int, b: Bus, w: nat, n: nat): Bus
    decreases n
  {
    var received := Step(maxDelivery, b, Receive(w));
    if n == 0 || !StateOf(received, w).Holding? then received
    else
      var decided := Step(maxDelivery, received, Decide(w));
      if StateOf(decided, w).Draining? then Solo(maxDelivery, decided, w, n - 1) else decided
  }

  /** One receive and decision is one turn of the adapter's loop. */
  lemma SoloTurn(maxDelivery: int, b: Bus, w: nat, n: nat, k: nat)
    requires 0 < n <= DRAIN_LIMIT && StateOf(b, w) == Draining(DRAIN_LIMIT - n, DRAIN_LIMIT - n)
    requires |b.handouts| == |b.messages| && FirstAvailable(b.messages, 0) == Some(k) && k < |b.messages|
    ensures var received := Step(maxDelivery, b, Receive(w));
            var decided := Step(maxDelivery, received, Decide(w));
            && StateOf(received, w).Holding?
            && decided.messages == b.messages[k := Handled(b.messages[k], StatusIn(b), maxDelivery)]
            && decided.runs == b.runs && |decided.handouts| == |decided.messages|
            && (StateOf(decided, w) ==
                  if HandsOut(b.messages[k], StatusIn(b), maxDelivery)
                  then Executing(k, DRAIN_LIMIT - n + 1, DRAIN_LIMIT - n)
                  else Draining(DRAIN_LIMIT - n + 1, DRAIN_LIMIT - n + 1))
  {
    hide FirstAvailable;
    var received := Step(maxDelivery, b, Receive(w));
    assert StateOf(received, w) == Holding(k, b.messages[k].deliveryCount + 1, DRAIN_LIMIT - n + 1, DRAIN_LIMIT - n);
    assert received.messages == b.messages[k := Received(b.messages[k])];
    var how := Dispose(received.messages[k], b.messages[k].deliveryCount + 1, StatusIn(received), maxDelivery);
    SameStatus(b, received);
    assert how == Dispose(b.messages[k], b.messages[k].deliveryCount + 1, StatusIn(b), maxDelivery);
  }

  lemma SameStatus(b: Bus, b': Bus)
    requires b'.runs == b.runs
    ensures forall m: Message, deliveries: nat, maxDelivery: int ::
              Dispose(m, deliveries, StatusIn(b'), maxDelivery) == Dispose(m, deliveries, StatusIn(b), maxDelivery)
  {
  }

  /** The statuses of one bus and another with the same runs drain alike. */
  lemma {:induction false} SameDrain(b: Bus, b': Bus, ms: seq<Message>, n: nat, maxDelivery: int)
    requires b'.runs == b.runs
    ensures DrainLoop(ms, n, StatusIn(b'), maxDelivery) == DrainLoop(ms, n, StatusIn(b), maxDelivery)
    decreases n
  {
    hide Dispose, FirstAvailable;
    SameStatus(b, b');
    if n > 0 && FirstAvailable(ms, 0).Some? {
      FirstAvailableIs(ms, 0);
      var k := FirstAvailable(ms, 0).value;
      SameDrain(b, b', ms[k := Handled(ms[k], StatusIn(b), maxDelivery)], n - 1, maxDelivery);
    }
  }

  /** Undisturbed, a claim of this protocol is the adapter's claim: it leaves the messages as the
      drain loop does and executes the message the loop hands out, if any. */
  lemma {:induction false} SoloClaimIsDrain(maxDelivery: int, b: Bus, w: nat, n: nat)
    requires n <= DRAIN_LIMIT && StateOf(b, w) == Draining(DRAIN_LIMIT - n, DRAIN_LIMIT - n)
    requires |b.handouts| == |b.messages|
    ensures var b' := Solo(maxDelivery, b, w, n);
            var (handed, after) := DrainLoop(b.messages, n, StatusIn(b), maxDelivery);
            && b'.messages == after
            && (handed.None? ==> StateOf(b', w).Idle?)
            && (handed.Some? ==> StateOf(b', w).Executing? && StateOf(b', w).k == handed.value)
    decreases n
  {
    hide DrainLoop, FirstAvailable, Dispose;
    if n == 0 || FirstAvailable(b.messages, 0).None? {
      NoneLeft(b.messages, n, StatusIn(b), maxDelivery);
    } else {
      var k := FirstAvailable(b.messages, 0).value;
      Turn(b.messages, n, StatusIn(b), maxDelivery, k);
      SoloTurn(maxDelivery, b, w, n, k);
      var decided := Step(maxDelivery, Step(maxDelivery, b, Receive(w)), Decide(w));
      if !HandsOut(b.messages[k], StatusIn(b), maxDelivery) {
        SoloClaimIsDrain(maxDelivery, decided, w, n - 1);
        SameDrain(b, decided, decided.messages, n - 1, maxDelivery);
      }
    }
  }
}
