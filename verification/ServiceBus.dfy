/** `execution/queue/azure_service_bus.py`: a bounded drain loop over a peek-lock broker. */
module ServiceBus {
  import opened Outcomes
  import opened JsonValues
  import opened Contract
  import opened Jobs

  datatype MessageState = Available | Locked | Completed | DeadLettered

  /** A broker-side message; `body` is the job it parses to, if it does. */
  datatype Message = Message(body: Option<ExecutionJob>, deliveryCount: nat, state: MessageState)

  type StatusOf = string -> Option<RunStatus>

  const DRAIN_LIMIT := 16

  datatype Disposition = HandOut | Drain | DeadLetter

  /** What `claim` does with a message it has just received. */
  function Dispose(m: Message, deliveries: nat, status: StatusOf, maxDelivery: int): Disposition {
    if m.body.None? || deliveries > maxDelivery then DeadLetter
    else
      match status(m.body.value.runId)
      case None => DeadLetter
      case Some(st) => if st.IsTerminal() then Drain else HandOut
  }

  function Received(m: Message): Message {
    m.(state := Locked, deliveryCount := m.deliveryCount + 1)
  }

  function Settled(m: Message, how: Disposition): Message {
    match how
    case HandOut => m
    case Drain => m.(state := Completed)
    case DeadLetter => m.(state := DeadLettered)
  }

  /** The message as one claim leaves it when it receives it. */
  function Handled(m: Message, status: StatusOf, maxDelivery: int): Message {
    Settled(Received(m), Dispose(m, m.deliveryCount + 1, status, maxDelivery))
  }

  predicate HandsOut(m: Message, status: StatusOf, maxDelivery: int) {
    Dispose(m, m.deliveryCount + 1, status, maxDelivery).HandOut?
  }

  function FirstAvailable(ms: seq<Message>, from: nat): Option<nat>
    requires from <= |ms|
    decreases |ms| - from
  {
    if from == |ms| then None
    else if ms[from].state.Available? then Some(from)
    else FirstAvailable(ms, from + 1)
  }

  lemma {:induction false} FirstAvailableIs(ms: seq<Message>, from: nat)
    requires from <= |ms|
    ensures match FirstAvailable(ms, from)
            case None => forall j :: from <= j < |ms| ==> !ms[j].state.Available?
            case Some(k) => && from <= k < |ms| && ms[k].state.Available?
                            && forall j :: from <= j < k ==> !ms[j].state.Available?
    decreases |ms| - from
  {
    if from < |ms| && !ms[from].state.Available? {
      FirstAvailableIs(ms, from + 1);
    }
  }

  /** The loop of `claim` with `n` receives left: the message handed out, and the broker after. */
  function DrainLoop(ms: seq<Message>, n: nat, status: StatusOf, maxDelivery: int): (Option<nat>, seq<Message>)
    decreases n
  {
    if n == 0 then (None, ms)
    else
      match FirstAvailable(ms, 0)
      case None => (None, ms)
      case Some(k) =>
        FirstAvailableIs(ms, 0);
        var after := ms[k := Handled(ms[k], status, maxDelivery)];
        if HandsOut(ms[k], status, maxDelivery) then (Some(k), after) else DrainLoop(after, n - 1, status, maxDelivery)
  }

  // ---------------------------------------------------------------- the loop in closed form

  /** How many available messages come before `k`. */
  function Rank(ms: seq<Message>, k: nat): nat
    requires k <= |ms|
  {
    if k == 0 then 0 else Rank(ms, k - 1) + if ms[k - 1].state.Available? then 1 else 0
  }

  /** The claim gets to message `k`: it is available, fewer than `n` available ones precede it, and
      none of those is handed out. */
  predicate Reached(ms: seq<Message>, n: nat, status: StatusOf, maxDelivery: int, k: nat)
    requires k < |ms|
  {
    && ms[k].state.Available? && Rank(ms, k) < n
    && forall j :: 0 <= j < k && ms[j].state.Available? ==> !HandsOut(ms[j], status, maxDelivery)
  }

  lemma {:induction false} RankSettled(ms: seq<Message>, k: nat, m: Message, j: nat)
    requires k < |ms| && j <= |ms| && ms[k].state.Available? && !m.state.Available?
    ensures Rank(ms, j) == Rank(ms[k := m], j) + if k < j then 1 else 0
    decreases j
  {
    if j > 0 {
      RankSettled(ms, k, m, j - 1);
    }
  }

  lemma {:induction false} RankZero(ms: seq<Message>, k: nat)
    requires k <= |ms| && forall j :: 0 <= j < k ==> !ms[j].state.Available?
    ensures Rank(ms, k) == 0
  {
    if k > 0 {
      RankZero(ms, k - 1);
    }
  }

  lemma {:induction false} RankGrows(ms: seq<Message>, k: nat, j: nat)
    requires k < j <= |ms| && ms[k].state.Available?
    ensures Rank(ms, j) >= Rank(ms, k) + 1
    decreases j
  {
    if k < j - 1 {
      RankGrows(ms, k, j - 1);
    }
  }

  /** One turn of the loop, in terms of which messages are reached. */
  lemma ReachedAfter(ms: seq<Message>, n: nat, status: StatusOf, maxDelivery: int, k: nat, j: nat)
    requires n > 0 && FirstAvailable(ms, 0) == Some(k) && k < |ms| && j < |ms|
    requires !HandsOut(ms[k], status, maxDelivery)
    ensures Reached(ms, n, status, maxDelivery, j) <==>
              j == k || Reached(ms[k := Handled(ms[k], status, maxDelivery)], n - 1, status, maxDelivery, j)
  {
    hide Rank;
    FirstAvailableIs(ms, 0);
    var after := ms[k := Handled(ms[k], status, maxDelivery)];
    assert !after[k].state.Available?;
    RankZero(ms, k);
    if j > k {
      RankSettled(ms, k, after[k], j);
      assert forall i :: 0 <= i < j && i != k ==> after[i] == ms[i];
    }
  }

  /** The drain loop in closed form: it handles exactly the messages it reaches, each once, leaves
      every other one alone, and hands out the one reached message that may run, if there is one. */
  lemma {:induction false} DrainExact(ms: seq<Message>, n: nat, status: StatusOf, maxDelivery: int)
    ensures var (handed, after) := DrainLoop(ms, n, status, maxDelivery);
            && |after| == |ms|
            && (forall j :: 0 <= j < |ms| ==>
                  after[j] == if Reached(ms, n, status, maxDelivery, j) then Handled(ms[j], status, maxDelivery) else ms[j])
            && (forall j :: 0 <= j < |ms| ==>
                  (handed == Some(j) <==> Reached(ms, n, status, maxDelivery, j) && HandsOut(ms[j], status, maxDelivery)))
            && (handed.Some? ==> handed.value < |ms|)
    decreases n
  {
    hide Rank, Dispose, Handled;
    FirstAvailableIs(ms, 0);
    if n > 0 && FirstAvailable(ms, 0).Some? {
      var k := FirstAvailable(ms, 0).value;
      RankZero(ms, k);
      if HandsOut(ms[k], status, maxDelivery) {
        assert Reached(ms, n, status, maxDelivery, k);
      } else {
        var after := ms[k := Handled(ms[k], status, maxDelivery)];
        DrainExact(after, n - 1, status, maxDelivery);
        forall j | 0 <= j < |ms|
          ensures Reached(ms, n, status, maxDelivery, j) <==> j == k || Reached(after, n - 1, status, maxDelivery, j)
        {
          ReachedAfter(ms, n, status, maxDelivery, k, j);
        }
        SettledNotReached(ms, n, status, maxDelivery, k);
      }
    }
  }

  lemma SettledNotReached(ms: seq<Message>, n: nat, status: StatusOf, maxDelivery: int, k: nat)
    requires n > 0 && k < |ms| && ms[k].state.Available? && !HandsOut(ms[k], status, maxDelivery)
    ensures !Reached(ms[k := Handled(ms[k], status, maxDelivery)], n - 1, status, maxDelivery, k)
  {
  }

  ghost function ReachedBelow(ms: seq<Message>, n: nat, status: StatusOf, maxDelivery: int, k: nat): set<nat>
    requires k <= |ms|
  {
    set j: nat | j < k && Reached(ms, n, status, maxDelivery, j)
  }

  /** At most `n` messages are received by one claim. */
  lemma {:induction false} ReceivedBounded(ms: seq<Message>, n: nat, status: StatusOf, maxDelivery: int, k: nat)
    requires k <= |ms|
    ensures |ReachedBelow(ms, n, status, maxDelivery, k)| <= n
    ensures |ReachedBelow(ms, n, status, maxDelivery, k)| <= Rank(ms, k)
    decreases k
  {
    var all := ReachedBelow(ms, n, status, maxDelivery, k);
    if k == 0 {
      assert all == {};
    } else {
      ReceivedBounded(ms, n, status, maxDelivery, k - 1);
      var before := ReachedBelow(ms, n, status, maxDelivery, k - 1);
      assert all == if Reached(ms, n, status, maxDelivery, k - 1) then before + {k - 1} else before;
    }
  }

  lemma NoneLeft(ms: seq<Message>, n: nat, status: StatusOf, maxDelivery: int)
    requires n == 0 || FirstAvailable(ms, 0).None?
    ensures DrainLoop(ms, n, status, maxDelivery) == (None, ms)
  {
  }

  lemma Turn(ms: seq<Message>, n: nat, status: StatusOf, maxDelivery: int, k: nat)
    requires n > 0 && FirstAvailable(ms, 0) == Some(k)
    ensures k < |ms|
    ensures var after := ms[k := Handled(ms[k], status, maxDelivery)];
            DrainLoop(ms, n, status, maxDelivery) ==
              if HandsOut(ms[k], status, maxDelivery) then (Some(k), after)
              else DrainLoop(after, n - 1, status, maxDelivery)
  {
    FirstAvailableIs(ms, 0);
  }

  // ---------------------------------------------------------------- what a claim does, message by message

  /** The message parses and this delivery of it is within the limit. */
  predicate WithinLimit(m: Message, maxDelivery: int) {
    m.body.Some? && m.deliveryCount + 1 <= maxDelivery
  }

  /** ... and its run is known and has not ended. */
  predicate Runnable(m: Message, status: StatusOf, maxDelivery: int) {
    && WithinLimit(m, maxDelivery)
    && var found := status(m.body.value.runId);
    && found.Some? && (found.value.Queued? || found.value.Running?)
  }

  /** ... or its run has ended. */
  predicate Ended(m: Message, status: StatusOf, maxDelivery: int) {
    && WithinLimit(m, maxDelivery)
    && var found := status(m.body.value.runId);
    && found.Some? && (found.value.Succeeded? || found.value.Partial? || found.value.Failed? || found.value.Cancelled?)
  }

  ghost function AvailableBefore(ms: seq<Message>, k: nat): set<nat>
    requires k <= |ms|
  {
    set j: nat | j < k && ms[j].state.Available?
  }

  /** A claim receives message `k`: it is available, fewer than sixteen available messages come before
      it, and none of them can run. */
  ghost predicate Receives(ms: seq<Message>, k: nat, status: StatusOf, maxDelivery: int)
    requires k < |ms|
  {
    && ms[k].state.Available? && |AvailableBefore(ms, k)| < 16
    && forall j :: 0 <= j < k && ms[j].state.Available? ==> !Runnable(ms[j], status, maxDelivery)
  }

  /** A message not received stays as it is. One received has one delivery more and ends locked if and
      only if it can run, completed if and only if its run has ended, and dead-lettered if and only if
      it does not parse, is over the limit or is of an unknown run. */
  ghost predicate DrainedMessage(ms: seq<Message>, after: seq<Message>, k: nat, status: StatusOf, maxDelivery: int)
    requires k < |ms| == |after|
  {
    if !Receives(ms, k, status, maxDelivery) then after[k] == ms[k]
    else
      && after[k].body == ms[k].body && after[k].deliveryCount == ms[k].deliveryCount + 1
      && (after[k].state.Locked? <==> Runnable(ms[k], status, maxDelivery))
      && (after[k].state.Completed? <==> Ended(ms[k], status, maxDelivery))
      && (after[k].state.DeadLettered? <==>
            ms[k].body.None? || ms[k].deliveryCount + 1 > maxDelivery || status(ms[k].body.value.runId).None?)
  }

  lemma {:induction false} RankIs(ms: seq<Message>, k: nat)
    requires k <= |ms|
    ensures |AvailableBefore(ms, k)| == Rank(ms, k)
  {
    if k == 0 {
      assert AvailableBefore(ms, k) == {};
    } else {
      RankIs(ms, k - 1);
      var before := AvailableBefore(ms, k - 1);
      assert AvailableBefore(ms, k) == if ms[k - 1].state.Available? then before + {k - 1} else before;
    }
  }

  lemma HandsOutMeans(m: Message, status: StatusOf, maxDelivery: int)
    ensures HandsOut(m, status, maxDelivery) <==> Runnable(m, status, maxDelivery)
    ensures var h := Handled(m, status, maxDelivery);
            && h.body == m.body && h.deliveryCount == m.deliveryCount + 1
            && (h.state.Locked? <==> Runnable(m, status, maxDelivery))
            && (h.state.Completed? <==> Ended(m, status, maxDelivery))
            && (h.state.DeadLettered? <==>
                  m.body.None? || m.deliveryCount + 1 > maxDelivery || status(m.body.value.runId).None?)
  {
    if m.body.Some? && status(m.body.value.runId).Some? {
      var st := status(m.body.value.runId).value;
      assert st.IsTerminal() <==> st.Succeeded? || st.Partial? || st.Failed? || st.Cancelled?;
    }
  }

  lemma ReceivesIs(ms: seq<Message>, k: nat, status: StatusOf, maxDelivery: int)
    requires k < |ms|
    ensures Receives(ms, k, status, maxDelivery) <==> Reached(ms, DRAIN_LIMIT, status, maxDelivery, k)
  {
    hide HandsOut, Runnable, Rank;
    RankIs(ms, k);
    forall j | 0 <= j < k ensures HandsOut(ms[j], status, maxDelivery) <==> Runnable(ms[j], status, maxDelivery) {
      HandsOutMeans(ms[j], status, maxDelivery);
    }
  }

  /** What a claim does to every message, and which one it hands out, in the broker's own terms. */
  lemma DrainMeans(ms: seq<Message>, status: StatusOf, maxDelivery: int)
    ensures var (handed, after) := DrainLoop(ms, DRAIN_LIMIT, status, maxDelivery);
            && |after| == |ms|
            && (forall k :: 0 <= k < |ms| ==> DrainedMessage(ms, after, k, status, maxDelivery))
            && (forall k :: 0 <= k < |ms| ==>
                  (handed == Some(k) <==> Receives(ms, k, status, maxDelivery) && Runnable(ms[k], status, maxDelivery)))
            && (handed.Some? ==> handed.value < |ms|)
  {
    hide DrainLoop, Reached, Receives, HandsOut, Handled, Runnable, Ended;
    DrainExact(ms, DRAIN_LIMIT, status, maxDelivery);
    var (handed, after) := DrainLoop(ms, DRAIN_LIMIT, status, maxDelivery);
    forall k | 0 <= k < |ms|
      ensures DrainedMessage(ms, after, k, status, maxDelivery)
      ensures handed == Some(k) <==> Receives(ms, k, status, maxDelivery) && Runnable(ms[k], status, maxDelivery)
    {
      ReceivesIs(ms, k, status, maxDelivery);
      HandsOutMeans(ms[k], status, maxDelivery);
    }
  }

  ghost predicate Drained(ms: seq<Message>, after: seq<Message>, status: StatusOf, maxDelivery: int) {
    |after| == |ms| && forall k :: 0 <= k < |ms| ==> DrainedMessage(ms, after, k, status, maxDelivery)
  }

  /** The claim returns the received message that can run, stamped, and keeps it in flight under its
      job id; with no such message it returns none. */
  ghost predicate HandsOver(ms: seq<Message>, inflight: map<string, nat>, inflight': map<string, nat>,
                            r: Option<ExecutionJob>, worker: string, at: Instant, status: StatusOf, maxDelivery: int)
  {
    match r
    case None =>
      && inflight' == inflight
      && forall k :: 0 <= k < |ms| && Receives(ms, k, status, maxDelivery) ==> !Runnable(ms[k], status, maxDelivery)
    case Some(job) =>
      exists k: nat ::
        && k < |ms| && Receives(ms, k, status, maxDelivery) && Runnable(ms[k], status, maxDelivery)
        && job == ms[k].body.value.(claimedAt := Some(at), workerId := Some(worker))
        && inflight' == inflight[job.jobId := k]
  }

  /** The claim leaves the broker as the drain loop does, returns the job it hands out, stamped, and
      keeps it in flight. */
  predicate LoopResult(ms: seq<Message>, inflight: map<string, nat>, ms': seq<Message>, inflight': map<string, nat>,
                       r: Option<ExecutionJob>, worker: string, at: Instant, status: StatusOf, maxDelivery: int)
  {
    var (handed, after) := DrainLoop(ms, DRAIN_LIMIT, status, maxDelivery);
    && ms' == after
    && match handed
       case None => r.None? && inflight' == inflight
       case Some(k) =>
         && k < |ms| && ms[k].body.Some?
         && var job := ms[k].body.value;
            && r == Some(job.(claimedAt := Some(at), workerId := Some(worker)))
            && inflight' == inflight[job.jobId := k]
  }

  lemma ClaimMeans(ms: seq<Message>, inflight: map<string, nat>, ms': seq<Message>, inflight': map<string, nat>,
                   r: Option<ExecutionJob>, worker: string, at: Instant, status: StatusOf, maxDelivery: int)
    requires LoopResult(ms, inflight, ms', inflight', r, worker, at, status, maxDelivery)
    ensures Drained(ms, ms', status, maxDelivery)
    ensures HandsOver(ms, inflight, inflight', r, worker, at, status, maxDelivery)
  {
    hide DrainLoop, Receives, DrainedMessage;
    DrainMeans(ms, status, maxDelivery);
    var handed := DrainLoop(ms, DRAIN_LIMIT, status, maxDelivery).0;
    if handed.Some? {
      var k := handed.value;
      assert Receives(ms, k, status, maxDelivery) && Runnable(ms[k], status, maxDelivery);
      assert r.value == ms[k].body.value.(claimedAt := Some(at), workerId := Some(worker));
      assert inflight' == inflight[r.value.jobId := k];
    }
  }

  lemma HandedOutIs(ms: seq<Message>, status: StatusOf, maxDelivery: int)
    ensures match DrainLoop(ms, DRAIN_LIMIT, status, maxDelivery).0
            case None => true
            case Some(k) =>
              && k < |ms| == |DrainLoop(ms, DRAIN_LIMIT, status, maxDelivery).1| && ms[k].body.Some?
              && DrainLoop(ms, DRAIN_LIMIT, status, maxDelivery).1[k].body == ms[k].body
  {
    hide DrainLoop, Receives;
    DrainMeans(ms, status, maxDelivery);
    var (handed, after) := DrainLoop(ms, DRAIN_LIMIT, status, maxDelivery);
    assert handed.Some? ==> DrainedMessage(ms, after, handed.value, status, maxDelivery);
  }

  lemma HandledIs(m: Message, status: StatusOf, maxDelivery: int)
    ensures var how := Dispose(m, m.deliveryCount + 1, status, maxDelivery);
            && Handled(m, status, maxDelivery) == Settled(Received(m), how)
            && Handled(m, status, maxDelivery).body == m.body == Received(m).body
            && Received(m).deliveryCount == m.deliveryCount + 1
            && (HandsOut(m, status, maxDelivery) <==> how.HandOut?)
            && Settled(Received(m), HandOut) == Received(m)
  {
  }

  // ---------------------------------------------------------------- the adapter

  class AzureServiceBusQueue {
    /** The broker's messages, in order of arrival. */
    var messages: seq<Message>
    /** Job id to the index of the peek-locked message handed out under it. */
    var inflight: map<string, nat>
    const maxDelivery: int

    constructor (maxDelivery: int)
      ensures messages == [] && inflight == map[] && this.maxDelivery == maxDelivery && Valid()
    {
      messages, inflight, this.maxDelivery := [], map[], maxDelivery;
    }

    ghost predicate Valid()
      reads this
    {
      forall id :: id in inflight ==> inflight[id] < |messages|
    }

    method Enqueue(job: ExecutionJob)
      requires Valid()
      modifies this`messages
      ensures Valid() && messages == old(messages) + [Message(Some(job), 0, Available)]
    {
      messages := messages + [Message(Some(job), 0, Available)];
    }

    /** The first available message, peek-locked; none when the wait times out. */
    method Receive() returns (k: Option<nat>)
      modifies this`messages
      ensures k == FirstAvailable(old(messages), 0)
      ensures match k
              case None => messages == old(messages)
              case Some(i) => i < |old(messages)| && messages == old(messages)[i := Received(old(messages)[i])]
    {
      FirstAvailableIs(messages, 0);
      for i := 0 to |messages|
        invariant messages == old(messages)
        invariant FirstAvailable(messages, 0) == FirstAvailable(messages, i)
      {
        if messages[i].state.Available? {
          messages := messages[i := Received(messages[i])];
          return Some(i);
        }
      }
      k := None;
    }

    method Claim(worker: string, at: Instant, status: StatusOf) returns (r: Result<Option<ExecutionJob>>)
      requires Valid()
      modifies this
      ensures Valid()
      ensures r.Err? <==> worker == "" || |worker| > 128
      ensures r.Err? ==> messages == old(messages) && inflight == old(inflight)
      ensures r.Ok? ==>
                LoopResult(old(messages), old(inflight), messages, inflight, r.value, worker, at, status, maxDelivery)
      ensures r.Ok? ==> Drained(old(messages), messages, status, maxDelivery)
      ensures r.Ok? ==> HandsOver(old(messages), old(inflight), inflight, r.value, worker, at, status, maxDelivery)
    {
      if worker == "" || |worker| > 128 {
        return Err(ContractViolation);
      }
      hide DrainLoop, FirstAvailable, Drained, HandsOver, Handled, HandsOut, Settled, Received;
      ghost var goal := DrainLoop(messages, DRAIN_LIMIT, status, maxDelivery);
      HandedOutIs(messages, status, maxDelivery);
      for turn := 0 to DRAIN_LIMIT
        invariant inflight == old(inflight) && |messages| == |old(messages)|
        invariant DrainLoop(messages, DRAIN_LIMIT - turn, status, maxDelivery) == goal
      {
        ghost var start := messages;
        var k := Receive();
        if k.None? {
          NoneLeft(start, DRAIN_LIMIT - turn, status, maxDelivery);
          ClaimMeans(old(messages), inflight, messages, inflight, None, worker, at, status, maxDelivery);
          return Ok(None);
        }
        var i := k.value;
        Turn(start, DRAIN_LIMIT - turn, status, maxDelivery, i);
        ghost var after := start[i := Handled(start[i], status, maxDelivery)];
        HandledIs(start[i], status, maxDelivery);
        var message := messages[i];
        if message.body.None? {
          messages := messages[i := Settled(message, DeadLetter)];
          assert messages == after;
          continue;
        }
        var job := message.body.value;
        if message.deliveryCount > maxDelivery {
          messages := messages[i := Settled(message, DeadLetter)];
          assert messages == after;
          continue;
        }
        var disposition := Executability(job, status);
        if disposition.Drain? {
          messages := messages[i := Settled(message, Drain)];
          assert messages == after;
          continue;
        }
        if disposition.DeadLetter? {
          messages := messages[i := Settled(message, DeadLetter)];
          assert messages == after;
          continue;
        }
        inflight := inflight[job.jobId := i];
        assert messages == after;
        var claimed := job.(claimedAt := Some(at), workerId := Some(worker));
        ClaimMeans(old(messages), old(inflight), messages, inflight, Some(claimed), worker, at, status, maxDelivery);
        return Ok(Some(claimed));
      }
      NoneLeft(messages, 0, status, maxDelivery);
      ClaimMeans(old(messages), inflight, messages, inflight, None, worker, at, status, maxDelivery);
      r := Ok(None);
    }

    /** `complete` and `fail`: settle the message handed out under this job id, once. */
    method Settle(job: ExecutionJob)
      requires Valid()
      modifies this
      ensures Valid() && inflight == old(inflight) - {job.jobId}
      ensures messages == if job.jobId !in old(inflight) then old(messages)
                          else var i := old(inflight)[job.jobId];
                               old(messages)[i := old(messages)[i].(state := Completed)]
    {
      if job.jobId !in inflight {
        return;
      }
      var i := inflight[job.jobId];
      inflight := inflight - {job.jobId};
      messages := messages[i := messages[i].(state := Completed)];
    }
  }

  /** `_executability`, and what follows from it. */
  function Executability(job: ExecutionJob, status: StatusOf): Disposition {
    match status(job.runId)
    case None => DeadLetter
    case Some(st) => if st.IsTerminal() then Drain else HandOut
  }
}
