/** The queue worker that delivers queued webhook jobs: one delivery attempt
    per job, and a re-queued copy with one more attempt counted while the
    delivery fails and fewer than three retries have been made. */
module QueueWorker {

  import opened Text
  import opened Webhooks

  /** The number of retries after the first delivery attempt. */
  const MAX_ATTEMPTS: nat := 3

  function Pow2(n: nat): (r: nat)
    ensures r >= 1
  {
    if n == 0 then 1 else 2 * Pow2(n - 1)
  }

  /** The back-off the worker computes before re-queueing: one minute,
      doubling with every attempt. The queue has no delayed items, so the
      value never reaches the queue. */
  function RetryDelay(attempts: nat): (seconds: nat)
    ensures seconds >= 60
  {
    Pow2(attempts) * 60
  }

  /** Each retry waits twice as long as the one before. */
  lemma RetryDelayDoubles(attempts: nat)
    ensures RetryDelay(attempts + 1) == 2 * RetryDelay(attempts)
    ensures RetryDelay(0) == 60 && RetryDelay(1) == 120 && RetryDelay(2) == 240
  {
  }

  /** Processes one job: delivers it once, and when the delivery fails while
      fewer than three retries have been made, appends a copy of the job with
      the attempt count raised by one (everything else unchanged). The log
      changes as the delivery logs; the store never changes. */
  function ProcessItem(st: State, item: QueueItem, client: Request -> HttpOutcome, c: Codec, now: int): (r: State)
    ensures r.store == st.store
    ensures r.logs == Send(st, item.webhook, item.payload, client, c, now).1.logs
    ensures |st.queue| <= |r.queue| <= |st.queue| + 1 && r.queue[..|st.queue|] == st.queue
    ensures |r.queue| == |st.queue| + 1
            <==> !Delivered(client(BuildRequest(item.webhook, item.payload, c))) && item.attempts < MAX_ATTEMPTS
    ensures |r.queue| == |st.queue| + 1 ==> r.queue[|st.queue|] == item.(attempts := item.attempts + 1)
  {
    var (ok, sent) := Send(st, item.webhook, item.payload, client, c, now);
    if !ok && item.attempts < MAX_ATTEMPTS then
      sent.(queue := sent.queue + [item.(attempts := item.attempts + 1)])
    else sent
  }

  /** A job answered with a server error while retries remain is logged as
      failed and queued again with one more attempt counted. */
  lemma ServerErrorRequeued(st: State, item: QueueItem, client: Request -> HttpOutcome, c: Codec, now: int)
    requires client(BuildRequest(item.webhook, item.payload, c)) == Response(500)
    requires item.attempts < MAX_ATTEMPTS
    ensures var r := ProcessItem(st, item, client, c, now);
            && r.queue == st.queue + [item.(attempts := item.attempts + 1)]
            && r.logs[0].status == "failed" && r.logs[0].statusCode == 500
  {
    var r := ProcessItem(st, item, client, c, now);
    assert r.queue == r.queue[..|st.queue|] + [r.queue[|st.queue|]];
  }

  /** One queue run step: claims the oldest job and processes it. */
  function RunNext(st: State, client: Request -> HttpOutcome, c: Codec, now: int): (r: State)
    requires |st.queue| > 0
    ensures r.store == st.store
    ensures |st.queue| - 1 <= |r.queue| && r.queue[..|st.queue| - 1] == st.queue[1..]
  {
    ProcessItem(st.(queue := st.queue[1..]), st.queue[0], client, c, now)
  }

  /** Running a queue of one job empties it when the delivery succeeds or
      the retries are used up, and otherwise leaves just the job with one
      more attempt counted. */
  lemma RunSingleJob(st: State, item: QueueItem, k: nat, req: Request, client: Request -> HttpOutcome, c: Codec, now: int)
    requires st.queue == [item.(attempts := k)] && req == BuildRequest(item.webhook, item.payload, c)
    ensures var r := RunNext(st, client, c, now);
            && r.store == st.store
            && (r.queue == [] <==> Delivered(client(req)) || k >= MAX_ATTEMPTS)
            && (r.queue != [] ==> r.queue == [item.(attempts := k + 1)])
  {
    var job := item.(attempts := k);
    var r := RunNext(st, client, c, now);
    assert st.queue[1..] == [];
    if r.queue != [] {
      assert r.queue == [] + [job.(attempts := job.attempts + 1)];
    }
  }

  /** No queued job has counted more than three retries. */
  ghost predicate AttemptsBounded(q: seq<QueueItem>) {
    forall i :: 0 <= i < |q| ==> q[i].attempts <= MAX_ATTEMPTS
  }

  /** Queueing fresh jobs keeps every job within the retry budget. */
  lemma TriggerKeepsAttemptsBounded(st: State, e: Entity, event: String, now: int)
    requires ValidStore(st.store) && AttemptsBounded(st.queue)
    ensures AttemptsBounded(Trigger(st, e, event, now).queue)
  {
    var q := Trigger(st, e, event, now).queue;
    forall i | 0 <= i < |q| ensures q[i].attempts <= MAX_ATTEMPTS {
      if i < |st.queue| {
        assert q[..|st.queue|][i] == q[i];
      }
    }
  }

  /** Processing a job keeps every job within the retry budget. */
  lemma RunNextKeepsAttemptsBounded(st: State, client: Request -> HttpOutcome, c: Codec, now: int)
    requires |st.queue| > 0 && AttemptsBounded(st.queue)
    ensures AttemptsBounded(RunNext(st, client, c, now).queue)
  {
    var q := RunNext(st, client, c, now).queue;
    forall i | 0 <= i < |q| ensures q[i].attempts <= MAX_ATTEMPTS {
      if i < |st.queue| - 1 {
        assert q[..|st.queue| - 1][i] == q[i];
        assert st.queue[1..][i] == st.queue[i + 1];
      }
    }
  }

  /** Runs the queue holding a single job until it is empty, where the n-th
      delivery is answered by `clients(n)` at time `clock(n)`. Deliveries
      carry attempt counts `item.attempts`, `item.attempts + 1`, ... and stop
      at the first success or after the attempt with count three, whichever
      comes first; so a job queued with no attempts is delivered at most four
      times, four times against an endpoint that always fails, and once when
      the first delivery succeeds. */
  method DeliverJob(st: State, item: QueueItem, clients: nat -> (Request -> HttpOutcome), c: Codec, clock: nat -> int)
    returns (r: State, attempts: seq<nat>)
    requires st.queue == [item] && item.attempts <= MAX_ATTEMPTS
    ensures r.queue == [] && r.store == st.store
    ensures 1 <= |attempts| <= MAX_ATTEMPTS + 1 - item.attempts
    ensures forall i :: 0 <= i < |attempts| ==> attempts[i] == item.attempts + i
    ensures forall i :: 0 <= i < |attempts| - 1 ==> !Delivered(clients(i)(BuildRequest(item.webhook, item.payload, c)))
    ensures Delivered(clients(|attempts| - 1)(BuildRequest(item.webhook, item.payload, c)))
            || attempts[|attempts| - 1] == MAX_ATTEMPTS
    ensures (forall n: nat :: !Delivered(clients(n)(BuildRequest(item.webhook, item.payload, c))))
            ==> |attempts| == MAX_ATTEMPTS + 1 - item.attempts
    ensures Delivered(clients(0)(BuildRequest(item.webhook, item.payload, c))) ==> |attempts| == 1
  {
    var req := BuildRequest(item.webhook, item.payload, c);
    r := st;
    attempts := [];
    while r.queue != []
      invariant r.store == st.store
      invariant Delivering(item, req, clients, r.queue, attempts)
      decreases |r.queue|, MAX_ATTEMPTS - (item.attempts + |attempts|)
    {
      var n := |attempts|;
      RunSingleJob(r, item, item.attempts + n, req, clients(n), c, clock(n));
      var next := RunNext(r, clients(n), c, clock(n));
      var k := r.queue[0].attempts;
      assert k == item.attempts + n;
      var more := attempts + [k];
      DeliveringStep(item, req, clients, r.queue, attempts, next.queue, more);
      r := next;
      attempts := more;
    }
    DeliveringDone(item, req, clients, attempts);
  }

  /** The state of delivering `item` with request `req` after the deliveries
      whose attempt counts are `attempts`, with `q` left in the queue. */
  ghost predicate Delivering(item: QueueItem, req: Request, clients: nat -> (Request -> HttpOutcome), q: seq<QueueItem>, attempts: seq<nat>) {
    var n := |attempts|;
    && item.attempts + n <= MAX_ATTEMPTS + 1
    && (forall i :: 0 <= i < n ==> attempts[i] == item.attempts + i)
    && (q == [] || (q == [item.(attempts := item.attempts + n)] && item.attempts + n <= MAX_ATTEMPTS))
    && (q != [] ==> forall i :: 0 <= i < n ==> !Delivered(clients(i)(req)))
    && (q == [] ==> n >= 1 && (forall i :: 0 <= i < n - 1 ==> !Delivered(clients(i)(req))))
    && (q == [] ==> Delivered(clients(n - 1)(req)) || item.attempts + n - 1 == MAX_ATTEMPTS)
  }

  /** One more delivery: the queue empties on success or when the retries
      are used up, and otherwise holds the job with one more attempt. */
  lemma DeliveringStep(item: QueueItem, req: Request, clients: nat -> (Request -> HttpOutcome),
                       q: seq<QueueItem>, attempts: seq<nat>, q2: seq<QueueItem>, attempts2: seq<nat>)
    requires Delivering(item, req, clients, q, attempts) && q != []
    requires attempts2 == attempts + [item.attempts + |attempts|]
    requires q2 == [] <==> Delivered(clients(|attempts|)(req)) || item.attempts + |attempts| >= MAX_ATTEMPTS
    requires q2 != [] ==> q2 == [item.(attempts := item.attempts + |attempts| + 1)]
    ensures Delivering(item, req, clients, q2, attempts2)
  {
  }

  /** When the queue is empty the deliveries stopped at the first success or
      after the last retry. */
  lemma DeliveringDone(item: QueueItem, req: Request, clients: nat -> (Request -> HttpOutcome), attempts: seq<nat>)
    requires Delivering(item, req, clients, [], attempts)
    ensures 1 <= |attempts| <= MAX_ATTEMPTS + 1 - item.attempts
    ensures forall i :: 0 <= i < |attempts| ==> attempts[i] == item.attempts + i
    ensures forall i :: 0 <= i < |attempts| - 1 ==> !Delivered(clients(i)(req))
    ensures Delivered(clients(|attempts| - 1)(req)) || attempts[|attempts| - 1] == MAX_ATTEMPTS
    ensures (forall n: nat :: !Delivered(clients(n)(req))) ==> |attempts| == MAX_ATTEMPTS + 1 - item.attempts
    ensures Delivered(clients(0)(req)) ==> |attempts| == 1
  {
  }
}
