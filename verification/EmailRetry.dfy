/** The email queue: workers claim jobs and report back, deadlines close jobs, customers ask for tickets again, and an
    administrator retries a failed job, either by resetting it or (a recovery link) by a successor that supersedes it.
    Every statement or transaction is one step; steps of any number of workers and administrators interleave. */
module EmailRetry {
  import opened Options

  datatype Kind = Tickets | Recovery | Refund | EventChange
  datatype Status = Pending | Processing | Sent | Failed

  /** What can go wrong with the database, the random source, the template or the mail server. */
  datatype Fault =
    | NoFault | RequestUnreadable | OrderUnreadable | RecipientUnsaved | TokenUnmade | DeadlineUnreadable
    | TokenUnstored | NotRendered | NotDelivered

  /** The texts of last_error. */
  datatype Message = Blank | WorkerStopped | RequestOverdue | NoMatch | BadAddress | Because(fault: Fault) | Other(text: string)

  /** A row of email_queue; `serial` is its place in the order of insertion. */
  datatype Job = Job(
    kind: Kind,
    status: Status,
    attempts: nat,
    dueAt: nat,
    token: Option<string>,
    lease: Option<nat>,
    order: Option<string>,
    request: Option<string>,
    recipient: string,
    error: Message,
    successor: Option<string>,
    serial: nat)

  datatype Request = Request(expiresAt: nat, used: bool)
  datatype Link = Link(request: string, expiresAt: nat)

  /** What a worker remembers of the job that it claimed. */
  datatype Taken = Taken(id: string, attempts: nat)

  datatype Queue = Queue(
    jobs: map<string, Job>,
    requests: map<string, Request>,
    links: seq<Link>,
    taken: map<string, Taken>,
    count: nat,
    now: nat)

  const MaxAttempts: nat := 3
  const LeaseTime: nat := 60
  const RequestTTL: nat := 900

  /** What RetryEmailJob finds outside the queue: whether the order, its tickets, its refund snapshot or its recovery
      pair still allow the retry, whether the rate limit blocks it, and the address of the buyer. */
  datatype Facts = Facts(ready: bool, limited: bool, recipient: string)

  datatype Event =
    | Enqueue(id: string, kind: Kind, order: Option<string>, recipient: string)
    | AskRecovery(id: string)
    | Resend(id: string, recipient: string)
    | Claim(id: string, token: string)
    | SaveRecipient(token: string, recipient: string)
    | InsertLink(token: string, deadline: Option<nat>)
    | MarkSent(token: string)
    | Retry(token: string, reason: Message)
    | FinishFailure(token: string, reason: Message)
    | ExpireExhausted
    | ExpireRecovery
    | RetryJob(id: string, newId: string, facts: Facts)
    | UseRequest(id: string)
    | Tick(elapsed: nat)

  datatype Outcome = Done | NotFound | Conflict | RateLimited | Unavailable | Retried(job: string)

  function NewJob(q: Queue, kind: Kind, order: Option<string>, request: Option<string>, recipient: string): Job {
    Job(kind, Pending, 0, q.now, None, None, order, request, recipient, Blank, None, q.count)
  }

  function Restarted(job: Job, now: nat, recipient: string): Job {
    job.(status := Pending, attempts := 0, dueAt := now, token := None, lease := None, error := Blank, recipient := recipient)
  }

  function Closed(job: Job, status: Status, error: Message): Job {
    job.(status := status, token := None, lease := None, error := error)
  }

  predicate Claimable(job: Job, now: nat) {
    && job.attempts < MaxAttempts
    && ((job.status == Pending && job.dueAt <= now) || (job.status == Processing && job.lease.Some? && job.lease.value <= now))
  }

  predicate Exhausted(job: Job, now: nat) {
    job.status == Processing && job.attempts >= MaxAttempts && job.lease.Some? && job.lease.value <= now
  }

  predicate Overdue(q: Queue, job: Job) {
    && job.kind == Recovery && job.status == Pending
    && job.request.Some? && job.request.value in q.requests && q.requests[job.request.value].expiresAt <= q.now
  }

  /** The worker's claim is still the one stored in its row. */
  predicate Owns(q: Queue, token: string) {
    && token in q.taken && q.taken[token].id in q.jobs
    && q.jobs[q.taken[token].id].status == Processing && q.jobs[q.taken[token].id].token == Some(token)
  }

  /** The UPDATE of the recipient asks only for the token. */
  predicate HasToken(q: Queue, token: string) {
    token in q.taken && q.taken[token].id in q.jobs && q.jobs[q.taken[token].id].token == Some(token)
  }

  function Put(q: Queue, id: string, job: Job): Queue {
    q.(jobs := q.jobs[id := job])
  }

  function Step(q: Queue, e: Event): (Queue, Outcome) {
    match e
    case Enqueue(id, kind, order, recipient) => (EnqueueStep(q, id, kind, order, recipient), Done)
    case AskRecovery(id) => AskStep(q, id)
    case Resend(id, recipient) => (ResendStep(q, id, recipient), Done)
    case Claim(id, token) => (ClaimStep(q, id, token), Done)
    case SaveRecipient(token, recipient) =>
      (if HasToken(q, token) then Put(q, q.taken[token].id, q.jobs[q.taken[token].id].(recipient := recipient)) else q, Done)
    case InsertLink(token, deadline) => (LinkStep(q, token, deadline), Done)
    case MarkSent(token) =>
      if Owns(q, token) then (Put(q, q.taken[token].id, Closed(q.jobs[q.taken[token].id], Sent, Blank)), Done) else (q, Conflict)
    case Retry(token, reason) =>
      (if Owns(q, token) then Put(q, q.taken[token].id, AfterAttempt(q.jobs[q.taken[token].id], q.taken[token].attempts, q.now, reason)) else q, Done)
    case FinishFailure(token, reason) =>
      (if Owns(q, token) then Put(q, q.taken[token].id, Closed(q.jobs[q.taken[token].id], Failed, reason)) else q, Done)
    case ExpireExhausted =>
      (q.(jobs := map id | id in q.jobs :: if Exhausted(q.jobs[id], q.now) then Closed(q.jobs[id], Failed, WorkerStopped) else q.jobs[id]), Done)
    case ExpireRecovery =>
      (q.(jobs := map id | id in q.jobs :: if Overdue(q, q.jobs[id]) then Closed(q.jobs[id], Failed, RequestOverdue) else q.jobs[id]), Done)
    case RetryJob(id, newId, facts) => RetryStep(q, id, newId, facts)
    case UseRequest(id) => (if id in q.requests then q.(requests := q.requests[id := q.requests[id].(used := true)]) else q, Done)
    case Tick(elapsed) => (q.(now := q.now + elapsed), Done)
  }

  /** INSERT IGNORE of a ticket, refund or event-change job. */
  function EnqueueStep(q: Queue, id: string, kind: Kind, order: Option<string>, recipient: string): Queue {
    if id in q.jobs || kind == Recovery then q
    else q.(jobs := q.jobs[id := NewJob(q, kind, order, None, recipient)], count := q.count + 1)
  }

  /** A recovery request and its job, both under the same new id. */
  function WithRequest(q: Queue, id: string): Queue {
    q.(requests := q.requests[id := Request(q.now + RequestTTL, false)],
       jobs := q.jobs[id := NewJob(q, Recovery, None, Some(id), "")],
       count := q.count + 1)
  }

  function AskStep(q: Queue, id: string): (Queue, Outcome) {
    if id in q.jobs || id in q.requests then (q, Unavailable) else (WithRequest(q, id), Done)
  }

  /** The customer's resend: INSERT ... ON DUPLICATE KEY UPDATE on the ticket job of the order. */
  function ResendStep(q: Queue, id: string, recipient: string): Queue {
    if id !in q.jobs then q.(jobs := q.jobs[id := NewJob(q, Tickets, Some(id), None, recipient)], count := q.count + 1)
    else if q.jobs[id].kind == Tickets && (q.jobs[id].status == Sent || q.jobs[id].status == Failed) then
      Put(q, id, q.jobs[id].(status := Pending, attempts := 0, dueAt := q.now, error := Blank, recipient := recipient))
    else q
  }

  function ClaimStep(q: Queue, id: string, token: string): Queue {
    if id in q.jobs && Claimable(q.jobs[id], q.now) then
      var job := q.jobs[id];
      q.(jobs := q.jobs[id := job.(status := Processing, attempts := job.attempts + 1, token := Some(token), lease := Some(q.now + LeaseTime))],
         taken := q.taken[token := Taken(id, job.attempts + 1)])
    else q
  }

  function LinkStep(q: Queue, token: string, deadline: Option<nat>): Queue {
    if token in q.taken && q.taken[token].id in q.jobs && q.jobs[q.taken[token].id].request.Some?
       && q.jobs[q.taken[token].id].request.value in q.requests
    then
      var request := q.jobs[q.taken[token].id].request.value;
      q.(links := q.links + [Link(request, Earlier(q.requests[request].expiresAt, deadline))])
    else q
  }

  function Earlier(expiresAt: nat, deadline: Option<nat>): nat {
    if deadline.Some? && deadline.value < expiresAt then deadline.value else expiresAt
  }

  function AfterAttempt(job: Job, attempts: nat, now: nat, reason: Message): Job {
    if attempts == 2 then Closed(job, Pending, reason).(dueAt := now + 300)
    else if attempts >= MaxAttempts then Closed(job, Failed, reason).(dueAt := now)
    else Closed(job, Pending, reason).(dueAt := now + 60)
  }

  function RetryStep(q: Queue, id: string, newId: string, facts: Facts): (Queue, Outcome) {
    if id !in q.jobs then (q, NotFound)
    else
      var job := q.jobs[id];
      if job.status != Failed || job.successor.Some? then (q, Conflict)
      else if job.kind == Recovery then SupersedeStep(q, id, newId, facts)
      else if job.kind != EventChange && (job.order.None? || !facts.ready) then (q, Conflict)
      else if job.kind == EventChange && !facts.ready then (q, Unavailable)
      else if facts.limited then (q, RateLimited)
      else (Put(q, id, Restarted(job, q.now, facts.recipient)), Retried(id))
  }

  function SupersedeStep(q: Queue, id: string, newId: string, facts: Facts): (Queue, Outcome)
    requires id in q.jobs
  {
    var job := q.jobs[id];
    if job.request.None? || job.request.value !in q.requests then (q, Conflict)
    else if q.requests[job.request.value].used || !facts.ready then (q, Conflict)
    else if facts.limited then (q, RateLimited)
    else if newId in q.jobs || newId in q.requests then (q, Unavailable)
    else (Put(WithRequest(q, newId), id, job.(successor := Some(newId))), Retried(newId))
  }

  function Run(q: Queue, events: seq<Event>): Queue
    decreases |events|
  {
    if events == [] then q else Run(Step(q, events[0]).0, events[1..])
  }

  predicate Fresh(q: Queue, e: Event) {
    e.Claim? ==> e.token !in q.taken
  }

  predicate FreshTokens(q: Queue, events: seq<Event>)
    decreases |events|
  {
    events == [] || (Fresh(q, events[0]) && FreshTokens(Step(q, events[0]).0, events[1..]))
  }

  // ---------------------------------------------------------------- what every step keeps

  /** A job is claimed exactly while it is PROCESSING, by a worker that remembers its attempt; it is never left with no
      attempt to make while PENDING. */
  predicate ClaimInOrder(q: Queue, id: string)
    requires id in q.jobs
  {
    var job := q.jobs[id];
    && job.attempts <= MaxAttempts
    && (job.status == Pending ==> job.attempts < MaxAttempts)
    && (job.status == Processing <==> job.token.Some?)
    && (job.token.Some? <==> job.lease.Some?)
    && (job.token.Some? ==> job.token.value in q.taken && q.taken[job.token.value] == Taken(id, job.attempts) && job.attempts > 0)
  }

  /** A superseded job is a FAILED recovery job, and its successor is a recovery job that was queued after it. */
  predicate LinkInOrder(jobs: map<string, Job>, count: nat, id: string)
    requires id in jobs
  {
    var job := jobs[id];
    && job.serial < count
    && (job.successor.Some? ==>
          && job.status == Failed && job.kind == Recovery
          && job.successor.value in jobs && jobs[job.successor.value].kind == Recovery
          && job.serial < jobs[job.successor.value].serial)
  }

  ghost predicate Linked(jobs: map<string, Job>, count: nat) {
    && (forall id :: id in jobs ==> LinkInOrder(jobs, count, id))
    && (forall a, b :: a in jobs && b in jobs && jobs[a].successor.Some? && jobs[a].successor == jobs[b].successor ==> a == b)
  }

  ghost predicate Claimed(q: Queue) {
    forall id :: id in q.jobs ==> ClaimInOrder(q, id)
  }

  /** A recovery link dies no later than the request that it answers. */
  predicate LinksBounded(q: Queue) {
    forall k :: 0 <= k < |q.links| ==> q.links[k].request in q.requests && q.links[k].expiresAt <= q.requests[q.links[k].request].expiresAt
  }

  ghost predicate InOrder(q: Queue) {
    Linked(q.jobs, q.count) && Claimed(q) && LinksBounded(q)
  }

  predicate KeepsLink(before: Job, after: Job) {
    && after.successor == before.successor && after.kind == before.kind && after.serial == before.serial
    && (before.successor.Some? ==> after == before)
  }

  /** Every step but a supersession leaves each link as it is and touches only jobs without one. */
  predicate KeepsLinks(before: Queue, after: Queue) {
    && before.count <= after.count
    && (forall id :: id in before.jobs ==> id in after.jobs && KeepsLink(before.jobs[id], after.jobs[id]))
    && (forall id :: id in after.jobs && id !in before.jobs ==>
          after.jobs[id].successor.None? && before.count <= after.jobs[id].serial < after.count)
  }

  lemma KeepsLinksKeepsLinked(before: Queue, after: Queue)
    requires Linked(before.jobs, before.count) && KeepsLinks(before, after)
    ensures Linked(after.jobs, after.count)
  {
    forall id | id in after.jobs ensures LinkInOrder(after.jobs, after.count, id) {
      if id in before.jobs { assert LinkInOrder(before.jobs, before.count, id); }
    }
  }

  predicate Supersedes(q: Queue, e: Event) {
    e.RetryJob? && e.id in q.jobs && q.jobs[e.id].kind == Recovery && Step(q, e).1.Retried?
  }

  lemma PutKeepsLinks(q: Queue, id: string, job: Job)
    requires Linked(q.jobs, q.count) && id in q.jobs && KeepsLink(q.jobs[id], job)
    ensures KeepsLinks(q, Put(q, id, job))
  {
  }

  lemma WorkerKeepsLinks(q: Queue, e: Event)
    requires InOrder(q) && (e.SaveRecipient? || e.MarkSent? || e.Retry? || e.FinishFailure?)
    ensures KeepsLinks(q, Step(q, e).0)
  {
    if HasToken(q, e.token) {
      var id := q.taken[e.token].id;
      assert ClaimInOrder(q, id) && LinkInOrder(q.jobs, q.count, id);
      PutKeepsLinks(q, id, Step(q, e).0.jobs[id]);
    }
  }

  lemma InsertKeepsLinks(q: Queue, e: Event)
    requires Linked(q.jobs, q.count) && (e.Enqueue? || e.AskRecovery? || e.Resend?)
    ensures KeepsLinks(q, Step(q, e).0)
  {
    if e.id in q.jobs { assert LinkInOrder(q.jobs, q.count, e.id); }
  }

  lemma StepKeepsLinks(q: Queue, e: Event)
    requires InOrder(q) && !Supersedes(q, e)
    ensures KeepsLinks(q, Step(q, e).0)
  {
    if e.SaveRecipient? || e.MarkSent? || e.Retry? || e.FinishFailure? {
      WorkerKeepsLinks(q, e);
    } else if e.Claim? {
      ClaimKeepsLinks(q, e.id, e.token);
    } else if e.ExpireExhausted? || e.ExpireRecovery? {
      ExpiryKeepsLinks(q, e);
    } else if e.Enqueue? || e.AskRecovery? || e.Resend? {
      InsertKeepsLinks(q, e);
    } else if e.RetryJob? {
      ResetKeepsLinks(q, e.id, e.newId, e.facts);
    } else {
      assert Step(q, e).0.jobs == q.jobs && Step(q, e).0.count == q.count;
    }
  }

  lemma ClaimKeepsLinks(q: Queue, id: string, token: string)
    requires Linked(q.jobs, q.count)
    ensures KeepsLinks(q, ClaimStep(q, id, token))
  {
    if id in q.jobs { assert LinkInOrder(q.jobs, q.count, id); }
  }

  lemma ExpiryKeepsLinks(q: Queue, e: Event)
    requires Linked(q.jobs, q.count) && (e.ExpireExhausted? || e.ExpireRecovery?)
    ensures KeepsLinks(q, Step(q, e).0)
  {
    forall id | id in q.jobs ensures LinkInOrder(q.jobs, q.count, id) {}
  }

  lemma ResetKeepsLinks(q: Queue, id: string, newId: string, facts: Facts)
    requires Linked(q.jobs, q.count) && !Supersedes(q, RetryJob(id, newId, facts))
    ensures KeepsLinks(q, RetryStep(q, id, newId, facts).0)
  {
    var (next, r) := RetryStep(q, id, newId, facts);
    if r.Retried? {
      PutKeepsLinks(q, id, Restarted(q.jobs[id], q.now, facts.recipient));
    } else {
      assert next == q;
    }
  }

  lemma SupersessionIs(q: Queue, e: Event)
    requires Supersedes(q, e)
    ensures var next := Step(q, e).0;
      && q.jobs[e.id].kind == Recovery && q.jobs[e.id].status == Failed && q.jobs[e.id].successor.None? && e.newId !in q.jobs
      && next.jobs == Superseded(q, e.id, e.newId) && next.count == q.count + 1
  {
  }

  function Superseded(q: Queue, id: string, newId: string): map<string, Job>
    requires id in q.jobs
  {
    q.jobs[newId := NewJob(q, Recovery, None, Some(newId), "")][id := q.jobs[id].(successor := Some(newId))]
  }

  predicate CanSupersede(q: Queue, id: string, newId: string) {
    && id in q.jobs && newId !in q.jobs
    && q.jobs[id].kind == Recovery && q.jobs[id].status == Failed && q.jobs[id].successor.None?
  }

  lemma SupersededLinks(q: Queue, id: string, newId: string)
    requires Linked(q.jobs, q.count) && CanSupersede(q, id, newId)
    ensures Linked(Superseded(q, id, newId), q.count + 1)
  {
    var jobs := Superseded(q, id, newId);
    forall other | other in jobs ensures LinkInOrder(jobs, q.count + 1, other) {
      if other in q.jobs { assert LinkInOrder(q.jobs, q.count, other); }
    }
    forall a, b | a in jobs && b in jobs && jobs[a].successor.Some? && jobs[a].successor == jobs[b].successor
      ensures a == b
    {
      if a in q.jobs { assert LinkInOrder(q.jobs, q.count, a); }
      if b in q.jobs { assert LinkInOrder(q.jobs, q.count, b); }
    }
  }

  lemma SupersessionKeepsLinked(q: Queue, e: Event)
    requires Linked(q.jobs, q.count) && Supersedes(q, e)
    ensures var next := Step(q, e).0;
      && Linked(next.jobs, next.count) && next.count == q.count + 1 && next.jobs == Superseded(q, e.id, e.newId)
      && q.jobs[e.id].status == Failed && q.jobs[e.id].successor.None? && e.newId !in q.jobs
  {
    SupersessionIs(q, e);
    SupersededLinks(q, e.id, e.newId);
  }

  lemma ClaimAfterPut(q: Queue, id: string, job: Job)
    requires Claimed(q) && ClaimInOrder(Put(q, id, job), id)
    ensures Claimed(Put(q, id, job))
  {
    var next := Put(q, id, job);
    forall other | other in next.jobs ensures ClaimInOrder(next, other) {
      if other != id { assert ClaimInOrder(q, other); }
    }
  }

  lemma WorkerKeepsClaimed(q: Queue, e: Event)
    requires Claimed(q) && (e.SaveRecipient? || e.MarkSent? || e.Retry? || e.FinishFailure?)
    ensures Claimed(Step(q, e).0)
  {
    if HasToken(q, e.token) {
      var id := q.taken[e.token].id;
      assert ClaimInOrder(q, id);
      ClaimAfterPut(q, id, Step(q, e).0.jobs[id]);
    }
  }

  lemma ClaimKeepsClaimed(q: Queue, id: string, token: string)
    requires Claimed(q) && token !in q.taken
    ensures Claimed(ClaimStep(q, id, token))
  {
    var next := ClaimStep(q, id, token);
    forall other | other in next.jobs ensures ClaimInOrder(next, other) {
      assert ClaimInOrder(q, other);
    }
  }

  lemma ExpiryKeepsClaimed(q: Queue, e: Event)
    requires Claimed(q) && (e.ExpireExhausted? || e.ExpireRecovery?)
    ensures Claimed(Step(q, e).0)
  {
    var next := Step(q, e).0;
    forall id | id in next.jobs ensures ClaimInOrder(next, id) {
      assert ClaimInOrder(q, id);
    }
  }

  lemma InsertKeepsClaimed(q: Queue, e: Event)
    requires Claimed(q) && (e.Enqueue? || e.AskRecovery? || e.Resend?)
    ensures Claimed(Step(q, e).0)
  {
    var next := Step(q, e).0;
    forall id | id in next.jobs ensures ClaimInOrder(next, id) {
      if id in q.jobs { assert ClaimInOrder(q, id); }
    }
  }

  lemma RetryKeepsClaimed(q: Queue, id: string, newId: string, facts: Facts)
    requires Claimed(q)
    ensures Claimed(RetryStep(q, id, newId, facts).0)
  {
    var next := RetryStep(q, id, newId, facts).0;
    forall other | other in next.jobs ensures ClaimInOrder(next, other) {
      if other in q.jobs { assert ClaimInOrder(q, other); }
    }
  }

  lemma StepKeepsClaimed(q: Queue, e: Event)
    requires Claimed(q) && Fresh(q, e)
    ensures Claimed(Step(q, e).0)
  {
    if e.SaveRecipient? || e.MarkSent? || e.Retry? || e.FinishFailure? {
      WorkerKeepsClaimed(q, e);
    } else if e.Claim? {
      ClaimKeepsClaimed(q, e.id, e.token);
    } else if e.ExpireExhausted? || e.ExpireRecovery? {
      ExpiryKeepsClaimed(q, e);
    } else if e.Enqueue? || e.AskRecovery? || e.Resend? {
      InsertKeepsClaimed(q, e);
    } else if e.RetryJob? {
      RetryKeepsClaimed(q, e.id, e.newId, e.facts);
    } else {
      assert Step(q, e).0.jobs == q.jobs && Step(q, e).0.taken == q.taken;
      forall id | id in q.jobs ensures ClaimInOrder(Step(q, e).0, id) { assert ClaimInOrder(q, id); }
    }
  }

  lemma StepKeepsBounds(q: Queue, e: Event)
    requires LinksBounded(q)
    ensures LinksBounded(Step(q, e).0)
  {
    var next := Step(q, e).0;
    assert forall id :: id in q.requests ==> id in next.requests && next.requests[id].expiresAt == q.requests[id].expiresAt;
  }

  lemma StepKeepsOrder(q: Queue, e: Event)
    requires InOrder(q) && Fresh(q, e)
    ensures InOrder(Step(q, e).0)
  {
    StepKeepsClaimed(q, e);
    StepKeepsBounds(q, e);
    if Supersedes(q, e) {
      SupersessionKeepsLinked(q, e);
    } else {
      StepKeepsLinks(q, e);
      KeepsLinksKeepsLinked(q, Step(q, e).0);
    }
  }

  lemma {:induction false} RunKeepsOrder(q: Queue, events: seq<Event>)
    requires InOrder(q) && FreshTokens(q, events)
    ensures InOrder(Run(q, events))
    decreases |events|
  {
    if events != [] {
      StepKeepsOrder(q, events[0]);
      RunKeepsOrder(Step(q, events[0]).0, events[1..]);
    }
  }

  // ---------------------------------------------------------------- chains

  /** A job, its successor, the successor of that one, and so on. */
  ghost function Chain(jobs: map<string, Job>, count: nat, id: string): (chain: seq<string>)
    requires Linked(jobs, count) && id in jobs
    ensures |chain| > 0 && chain[0] == id
    decreases count - jobs[id].serial
  {
    assert LinkInOrder(jobs, count, id);
    if jobs[id].successor.None? then [id]
    else
      assert LinkInOrder(jobs, count, jobs[id].successor.value);
      [id] + Chain(jobs, count, jobs[id].successor.value)
  }

  /** Along a chain each job is queued after the one that it supersedes, so no job occurs twice. */
  lemma {:induction false} ChainAscends(jobs: map<string, Job>, count: nat, id: string, i: nat, j: nat)
    requires Linked(jobs, count) && id in jobs && i < j < |Chain(jobs, count, id)|
    ensures var chain := Chain(jobs, count, id);
      chain[i] in jobs && chain[j] in jobs && jobs[chain[i]].serial < jobs[chain[j]].serial && chain[i] != chain[j]
    decreases count - jobs[id].serial
  {
    var next := jobs[id].successor.value;
    assert LinkInOrder(jobs, count, id) && LinkInOrder(jobs, count, next);
    if i > 0 {
      ChainAscends(jobs, count, next, i - 1, j - 1);
    } else if j > 1 {
      ChainAscends(jobs, count, next, 0, j - 1);
    }
  }

  /** Each job of a chain is superseded by the next one and FAILED; only its last job, which nothing supersedes, can be
      anything but FAILED. */
  lemma {:induction false} OnlyTheTailIsLive(jobs: map<string, Job>, count: nat, id: string, k: nat)
    requires Linked(jobs, count) && id in jobs && k < |Chain(jobs, count, id)|
    ensures var chain := Chain(jobs, count, id);
      && chain[k] in jobs
      && (if k < |chain| - 1 then jobs[chain[k]].status == Failed && jobs[chain[k]].successor == Some(chain[k + 1])
          else jobs[chain[k]].successor.None?)
    decreases count - jobs[id].serial
  {
    assert LinkInOrder(jobs, count, id);
    if jobs[id].successor.Some? {
      var next := jobs[id].successor.value;
      assert LinkInOrder(jobs, count, next);
      if k > 0 { OnlyTheTailIsLive(jobs, count, next, k - 1); }
    }
  }

  /** Two chains that end in the same job are one chain: each job has at most one predecessor. */
  lemma {:induction false} ChainsDoNotMerge(jobs: map<string, Job>, count: nat, a: string, b: string)
    requires Linked(jobs, count) && a in jobs && b in jobs
    requires var ca, cb := Chain(jobs, count, a), Chain(jobs, count, b); ca[|ca| - 1] == cb[|cb| - 1]
    ensures a in Chain(jobs, count, b) || b in Chain(jobs, count, a)
    decreases count - jobs[a].serial
  {
    var ca, cb := Chain(jobs, count, a), Chain(jobs, count, b);
    assert LinkInOrder(jobs, count, a);
    if jobs[a].successor.None? {
      assert a == cb[|cb| - 1];
    } else {
      var next := jobs[a].successor.value;
      assert LinkInOrder(jobs, count, next);
      var cn := Chain(jobs, count, next);
      assert ca == [a] + cn && cn[|cn| - 1] == ca[|ca| - 1];
      ChainsDoNotMerge(jobs, count, next, b);
      if b in cn {
        var k :| 0 <= k < |cn| && cn[k] == b;
        assert ca[k + 1] == b;
      } else {
        var k :| 0 <= k < |cb| && cb[k] == next;
        assert k > 0;
        OnlyTheTailIsLive(jobs, count, b, k - 1);
        assert jobs[cb[k - 1]].successor == Some(next);
      }
    }
  }

  lemma {:induction false} SameLinksSameChain(before: Queue, after: Queue, id: string)
    requires Linked(before.jobs, before.count) && Linked(after.jobs, after.count) && KeepsLinks(before, after) && id in before.jobs
    ensures Chain(after.jobs, after.count, id) == Chain(before.jobs, before.count, id)
    decreases before.count - before.jobs[id].serial
  {
    assert LinkInOrder(before.jobs, before.count, id);
    if before.jobs[id].successor.Some? {
      assert LinkInOrder(before.jobs, before.count, before.jobs[id].successor.value);
      SameLinksSameChain(before, after, before.jobs[id].successor.value);
    }
  }

  lemma {:induction false} SupersessionExtendsChain(q: Queue, id: string, newId: string, at: string)
    requires Linked(q.jobs, q.count) && CanSupersede(q, id, newId) && at in q.jobs
    ensures Linked(Superseded(q, id, newId), q.count + 1)
    ensures var chain := Chain(q.jobs, q.count, at);
      Chain(Superseded(q, id, newId), q.count + 1, at) == if chain[|chain| - 1] == id then chain + [newId] else chain
    decreases q.count - q.jobs[at].serial
  {
    SupersededLinks(q, id, newId);
    assert LinkInOrder(q.jobs, q.count, at);
    if q.jobs[at].successor.Some? {
      assert LinkInOrder(q.jobs, q.count, q.jobs[at].successor.value);
      SupersessionExtendsChain(q, id, newId, q.jobs[at].successor.value);
    } else if at == id {
      assert Chain(Superseded(q, id, newId), q.count + 1, newId) == [newId];
    }
  }

  /** Each step is a supersession, or keeps the links. */
  lemma StepShape(q: Queue, e: Event) returns (superseded: bool, at: string, newId: string)
    requires InOrder(q) && Fresh(q, e)
    ensures superseded ==> CanSupersede(q, at, newId)
    ensures superseded ==> Step(q, e).0.jobs == Superseded(q, at, newId) && Step(q, e).0.count == q.count + 1
    ensures !superseded ==> KeepsLinks(q, Step(q, e).0)
  {
    superseded := Supersedes(q, e);
    if superseded {
      at, newId := e.id, e.newId;
      SupersessionIs(q, e);
    } else {
      at, newId := "", "";
      StepKeepsLinks(q, e);
    }
  }

  lemma {:induction false} SupersessionGrowsChain(q: Queue, next: Queue, id: string, at: string, newId: string)
    requires Linked(q.jobs, q.count) && Linked(next.jobs, next.count) && id in q.jobs
    requires CanSupersede(q, at, newId) && next.jobs == Superseded(q, at, newId) && next.count == q.count + 1
    ensures id in next.jobs && Chain(q.jobs, q.count, id) <= Chain(next.jobs, next.count, id)
  {
    var chain := Chain(q.jobs, q.count, id);
    SupersessionExtendsChain(q, at, newId, id);
    assert chain <= chain + [newId];
  }

  /** Over every run a chain only grows, and only at its tail. */
  lemma {:induction false} ChainsOnlyGrow(q: Queue, events: seq<Event>, id: string)
    requires InOrder(q) && FreshTokens(q, events) && id in q.jobs
    ensures InOrder(Run(q, events)) && id in Run(q, events).jobs
    ensures Chain(q.jobs, q.count, id) <= Chain(Run(q, events).jobs, Run(q, events).count, id)
    decreases |events|
  {
    if events != [] {
      StepKeepsOrder(q, events[0]);
      var superseded, at, newId := StepShape(q, events[0]);
      var next := Step(q, events[0]).0;
      if superseded { SupersessionGrowsChain(q, next, id, at, newId); } else { SameLinksSameChain(q, next, id); }
      ChainsOnlyGrow(next, events[1..], id);
    }
  }

  /** A superseded job stays what it is, FAILED and with the same successor, whatever happens afterwards. */
  lemma {:induction false} SupersededNeverChanges(q: Queue, events: seq<Event>, id: string)
    requires InOrder(q) && FreshTokens(q, events) && id in q.jobs && q.jobs[id].successor.Some?
    ensures id in Run(q, events).jobs && Run(q, events).jobs[id] == q.jobs[id] && q.jobs[id].status == Failed
    decreases |events|
  {
    assert LinkInOrder(q.jobs, q.count, id);
    if events != [] {
      var e, next := events[0], Step(q, events[0]).0;
      StepKeepsOrder(q, e);
      if Supersedes(q, e) { SupersessionKeepsLinked(q, e); } else { StepKeepsLinks(q, e); }
      assert next.jobs[id] == q.jobs[id];
      SupersededNeverChanges(next, events[1..], id);
    }
  }

  lemma SentStepKeeps(q: Queue, e: Event, id: string)
    requires InOrder(q) && Fresh(q, e) && id in q.jobs && q.jobs[id].status == Sent && (e.Resend? ==> e.id != id)
    ensures id in Step(q, e).0.jobs && Step(q, e).0.jobs[id] == q.jobs[id]
  {
    if Supersedes(q, e) { SupersessionKeepsLinked(q, e); }
  }

  /** A SENT job is never sent again on its own: only the customer's resend of the tickets restarts it. */
  lemma {:induction false} SentStaysSent(q: Queue, events: seq<Event>, id: string)
    requires InOrder(q) && FreshTokens(q, events) && id in q.jobs && q.jobs[id].status == Sent
    requires forall k :: 0 <= k < |events| && events[k].Resend? ==> events[k].id != id
    ensures id in Run(q, events).jobs && Run(q, events).jobs[id] == q.jobs[id]
    decreases |events|
  {
    if events != [] {
      StepKeepsOrder(q, events[0]);
      SentStepKeeps(q, events[0], id);
      SentStaysSent(Step(q, events[0]).0, events[1..], id);
    }
  }

  // ---------------------------------------------------------------- retries, claims, progress

  /** A retry is granted only to the FAILED tail of a chain; then the tail becomes PENDING with all attempts ahead of it:
      the same job when it can be reset, a new last job of the chain when it is a recovery. */
  lemma {:induction false} RetryRevivesTheTail(q: Queue, id: string, newId: string, facts: Facts)
    requires InOrder(q) && id in q.jobs && Step(q, RetryJob(id, newId, facts)).1.Retried?
    ensures Chain(q.jobs, q.count, id) == [id] && q.jobs[id].status == Failed
    ensures var (next, r) := Step(q, RetryJob(id, newId, facts));
      && Linked(next.jobs, next.count)
      && Chain(next.jobs, next.count, id) == (if q.jobs[id].kind == Recovery then [id, newId] else [id])
      && r.job == (if q.jobs[id].kind == Recovery then newId else id)
      && r.job in next.jobs && Claimable(next.jobs[r.job], next.now) && next.jobs[r.job].attempts == 0
      && (q.jobs[id].kind == Recovery ==> next.jobs[id] == q.jobs[id].(successor := Some(newId)))
  {
    var e := RetryJob(id, newId, facts);
    StepKeepsOrder(q, e);
    var next := Step(q, e).0;
    if Supersedes(q, e) {
      SupersessionKeepsLinked(q, e);
      SupersessionExtendsChain(q, id, newId, id);
    } else {
      StepKeepsLinks(q, e);
      SameLinksSameChain(q, next, id);
    }
  }

  /** A second retry of the same job finds it either PENDING or superseded, and is refused without a change. */
  lemma RetryTwiceIsRefused(q: Queue, id: string, newId: string, facts: Facts, other: string, again: Facts)
    requires id in q.jobs && Step(q, RetryJob(id, newId, facts)).1.Retried?
    ensures Step(Step(q, RetryJob(id, newId, facts)).0, RetryJob(id, other, again)) == (Step(q, RetryJob(id, newId, facts)).0, Conflict)
  {
  }

  /** What a worker reports takes effect only while its claim is stored, and then its own count of attempts is the
      row's; a worker whose claim was overtaken, expired or closed changes no job. */
  lemma ReportNeedsClaim(q: Queue, e: Event)
    requires InOrder(q) && (e.MarkSent? || e.Retry? || e.FinishFailure? || e.SaveRecipient?)
    ensures !Owns(q, e.token) ==> Step(q, e).0 == q
    ensures Owns(q, e.token) ==>
              var id := q.taken[e.token].id;
              && q.taken[e.token].attempts == q.jobs[id].attempts
              && Step(q, e).0 == Put(q, id, Step(q, e).0.jobs[id])
              && (e.Retry? ==> (Step(q, e).0.jobs[id].status == Failed <==> q.jobs[id].attempts == MaxAttempts))
              && (!e.SaveRecipient? ==> !Owns(Step(q, e).0, e.token))
  {
    if HasToken(q, e.token) { assert ClaimInOrder(q, q.taken[e.token].id); }
  }

  /** No job is stuck: one whose turn has come, or whose worker went silent, can be claimed or is closed by the next
      sweep, and exactly one of the two. */
  lemma NoJobIsStuck(q: Queue, id: string)
    requires InOrder(q) && id in q.jobs
    requires (q.jobs[id].status == Pending && q.jobs[id].dueAt <= q.now)
          || (q.jobs[id].status == Processing && q.jobs[id].lease.Some? && q.jobs[id].lease.value <= q.now)
    ensures Claimable(q.jobs[id], q.now) <==> !Exhausted(q.jobs[id], q.now)
    ensures Exhausted(q.jobs[id], q.now) ==> Step(q, ExpireExhausted).0.jobs[id].status == Failed
  {
    assert ClaimInOrder(q, id);
  }

  lemma {:induction false} RunOne(q: Queue, a: Event)
    ensures Run(q, [a]) == Step(q, a).0
  {
    assert Run(Step(q, a).0, [a][1..]) == Step(q, a).0;
  }

  lemma {:induction false} RunTwo(q: Queue, a: Event, b: Event)
    ensures Run(q, [a, b]) == Step(Step(q, a).0, b).0
  {
    assert [a, b][1..] == [b];
    assert Run(Step(q, a).0, [b]) == Step(Step(q, a).0, b).0;
  }

  lemma {:induction false} RunThree(q: Queue, a: Event, b: Event, c: Event)
    ensures Run(q, [a, b, c]) == Step(Step(Step(q, a).0, b).0, c).0
  {
    assert [a, b, c][1..] == [b, c];
    RunTwo(Step(q, a).0, b, c);
  }

  // ---------------------------------------------------------------- one attempt at a recovery link

  datatype RecoveryOrder = RecoveryOrder(matches: bool, eligible: bool, mailbox: bool, email: string, deadline: Option<nat>)

  /** The request behind a claimed job can still be answered. */
  predicate Answerable(q: Queue, token: string)
    requires token in q.taken && q.taken[token].id in q.jobs
  {
    var request := q.jobs[q.taken[token].id].request;
    request.Some? && request.value in q.requests && !q.requests[request.value].used && q.requests[request.value].expiresAt > q.now
  }

  /** What ends the attempt before a link is made, if anything does. */
  function Refusal(q: Queue, token: string, order: Option<RecoveryOrder>, fault: Fault): Option<Event>
    requires token in q.taken && q.taken[token].id in q.jobs
  {
    if fault == RequestUnreadable then Some(Retry(token, Because(fault)))
    else if !Answerable(q, token) then Some(FinishFailure(token, RequestOverdue))
    else if fault == OrderUnreadable then Some(Retry(token, Because(fault)))
    else if order.None? || !order.value.matches || !order.value.eligible then Some(FinishFailure(token, NoMatch))
    else if !order.value.mailbox then Some(FinishFailure(token, BadAddress))
    else if fault == RecipientUnsaved then Some(Retry(token, Because(fault)))
    else None
  }

  /** The statements of one attempt. */
  function Recovering(q: Queue, token: string, order: Option<RecoveryOrder>, fault: Fault): (steps: seq<Event>)
    requires token in q.taken && q.taken[token].id in q.jobs
  {
    var refusal := Refusal(q, token, order, fault);
    if refusal.Some? then [refusal.value] else Delivering(token, order.value, fault)
  }

  function Delivering(token: string, order: RecoveryOrder, fault: Fault): (steps: seq<Event>) {
    var save, link := SaveRecipient(token, order.email), InsertLink(token, order.deadline);
    if fault == TokenUnmade || fault == DeadlineUnreadable || fault == TokenUnstored then [save, Retry(token, Because(fault))]
    else if fault == NotRendered || fault == NotDelivered then [save, link, Retry(token, Because(fault))]
    else [save, link, MarkSent(token)]
  }

  /** The claim is gone and no other job changed. */
  predicate Ended(q: Queue, next: Queue, token: string)
    requires token in q.taken && q.taken[token].id in q.jobs
  {
    && q.taken[token].id in next.jobs && !Owns(next, token) && next.jobs.Keys == q.jobs.Keys
    && forall other :: other in q.jobs && other != q.taken[token].id ==> next.jobs[other] == q.jobs[other]
  }

  lemma ReportEnds(q: Queue, e: Event)
    requires (e.MarkSent? || e.Retry? || e.FinishFailure?) && Owns(q, e.token)
    ensures var id, next := q.taken[e.token].id, Step(q, e).0;
      && Ended(q, next, e.token) && next.links == q.links
      && next.jobs[id].recipient == q.jobs[id].recipient
      && (next.jobs[id].status == Sent <==> e.MarkSent?)
  {
  }

  lemma SaveIs(q: Queue, token: string, recipient: string) returns (next: Queue)
    requires Owns(q, token)
    ensures next == Step(q, SaveRecipient(token, recipient)).0
    ensures next == Put(q, q.taken[token].id, q.jobs[q.taken[token].id].(recipient := recipient)) && Owns(next, token)
  {
    next := Step(q, SaveRecipient(token, recipient)).0;
  }

  lemma LinkIs(q: Queue, token: string, deadline: Option<nat>) returns (next: Queue)
    requires Owns(q, token) && Answerable(q, token)
    ensures next == Step(q, InsertLink(token, deadline)).0
    ensures var request := q.jobs[q.taken[token].id].request.value;
      next == q.(links := q.links + [Link(request, Earlier(q.requests[request].expiresAt, deadline))])
  {
    next := Step(q, InsertLink(token, deadline)).0;
  }

  lemma {:induction false} DeliveringEnds(q: Queue, token: string, order: RecoveryOrder, fault: Fault)
    requires Owns(q, token) && Answerable(q, token)
    ensures var id, next := q.taken[token].id, Run(q, Delivering(token, order, fault));
      && Ended(q, next, token)
      && (next.jobs[id].status == Sent <==> Delivering(token, order, fault)[|Delivering(token, order, fault)| - 1].MarkSent?)
      && (next.jobs[id].status == Sent ==> next.jobs[id].recipient == order.email && next.links == q.links + [LinkFor(q, token, order.deadline)])
  {
    var steps := Delivering(token, order, fault);
    var saved := SaveIs(q, token, order.email);
    if |steps| == 2 {
      RunTwo(q, steps[0], steps[1]);
      ReportEnds(saved, steps[1]);
    } else {
      var linked := LinkIs(saved, token, order.deadline);
      RunThree(q, steps[0], steps[1], steps[2]);
      ReportEnds(linked, steps[2]);
    }
  }

  function LinkFor(q: Queue, token: string, deadline: Option<nat>): Link
    requires token in q.taken && q.taken[token].id in q.jobs && Answerable(q, token)
  {
    var request := q.jobs[q.taken[token].id].request.value;
    Link(request, Earlier(q.requests[request].expiresAt, deadline))
  }

  /** One attempt ends the claim in any case.  The job is SENT afterwards exactly when nothing went wrong, the request was
      answerable, and an eligible order with a usable address matches it; then the address was stored and one link was
      issued, which expires with the request or with the order, whichever is first. */
  lemma {:induction false} RecoveringEndsTheClaim(q: Queue, token: string, order: Option<RecoveryOrder>, fault: Fault)
    requires Owns(q, token)
    ensures var id, next := q.taken[token].id, Run(q, Recovering(q, token, order, fault));
      && Ended(q, next, token)
      && (next.jobs[id].status == Sent <==>
            && fault == NoFault && Answerable(q, token)
            && order.Some? && order.value.matches && order.value.eligible && order.value.mailbox)
      && (next.jobs[id].status == Sent ==>
            next.jobs[id].recipient == order.value.email && next.links == q.links + [LinkFor(q, token, order.value.deadline)])
  {
    var refusal := Refusal(q, token, order, fault);
    if refusal.Some? {
      RunOne(q, refusal.value);
      ReportEnds(q, refusal.value);
    } else {
      DeliveringEnds(q, token, order.value, fault);
    }
  }

  // ---------------------------------------------------------------- one attempt among others

  /** None of the events is a statement of the worker with this claim. */
  predicate Foreign(events: seq<Event>, token: string) {
    forall k :: 0 <= k < |events| ==> !IsStatementOf(events[k], token)
  }

  predicate IsStatementOf(e: Event, token: string) {
    (e.SaveRecipient? || e.InsertLink? || e.MarkSent? || e.Retry? || e.FinishFailure?) && e.token == token
  }

  /** What others leave alone: requests keep their deadline, issued links stay, and a claim that is still stored has its
      row as it was. */
  predicate Respects(q: Queue, next: Queue, token: string) {
    && token in q.taken && token in next.taken && next.taken[token] == q.taken[token]
    && (Owns(next, token) ==> Owns(q, token) && next.jobs[q.taken[token].id] == q.jobs[q.taken[token].id])
    && (forall r :: r in q.requests ==> r in next.requests && next.requests[r].expiresAt == q.requests[r].expiresAt)
    && q.links <= next.links
  }

  lemma RespectsTransitive(q: Queue, middle: Queue, next: Queue, token: string)
    requires Respects(q, middle, token) && Respects(middle, next, token)
    ensures Respects(q, next, token)
  {
  }

  lemma ForeignWorkerRespects(q: Queue, e: Event, token: string)
    requires InOrder(q) && token in q.taken && !IsStatementOf(e, token)
    requires e.SaveRecipient? || e.InsertLink? || e.MarkSent? || e.Retry? || e.FinishFailure?
    ensures Respects(q, Step(q, e).0, token)
  {
  }

  lemma InsertRespects(q: Queue, e: Event, token: string)
    requires InOrder(q) && token in q.taken && (e.Enqueue? || e.AskRecovery? || e.Resend? || e.UseRequest? || e.Tick?)
    ensures Respects(q, Step(q, e).0, token)
  {
    if q.taken[token].id in q.jobs { assert ClaimInOrder(q, q.taken[token].id); }
  }

  lemma RetryRespects(q: Queue, id: string, newId: string, facts: Facts, token: string)
    requires InOrder(q) && token in q.taken
    ensures Respects(q, RetryStep(q, id, newId, facts).0, token)
  {
    if q.taken[token].id in q.jobs { assert ClaimInOrder(q, q.taken[token].id); }
  }

  lemma SweepRespects(q: Queue, e: Event, token: string)
    requires InOrder(q) && token in q.taken && (e.ExpireExhausted? || e.ExpireRecovery?)
    ensures Respects(q, Step(q, e).0, token)
  {
  }

  lemma ForeignRespects(q: Queue, e: Event, token: string)
    requires InOrder(q) && Fresh(q, e) && token in q.taken && !IsStatementOf(e, token)
    ensures Respects(q, Step(q, e).0, token)
  {
    if e.RetryJob? {
      RetryRespects(q, e.id, e.newId, e.facts, token);
    } else if e.ExpireExhausted? || e.ExpireRecovery? {
      SweepRespects(q, e, token);
    } else if e.Enqueue? || e.AskRecovery? || e.Resend? || e.UseRequest? || e.Tick? {
      InsertRespects(q, e, token);
    } else if !e.Claim? {
      ForeignWorkerRespects(q, e, token);
    }
  }

  lemma {:induction false} OthersRespect(q: Queue, events: seq<Event>, token: string)
    requires InOrder(q) && FreshTokens(q, events) && token in q.taken && Foreign(events, token)
    ensures InOrder(Run(q, events)) && Respects(q, Run(q, events), token)
    decreases |events|
  {
    if events != [] {
      var next := Step(q, events[0]).0;
      StepKeepsOrder(q, events[0]);
      ForeignRespects(q, events[0], token);
      OthersRespect(next, events[1..], token);
      RespectsTransitive(q, next, Run(q, events), token);
    }
  }

  /** The statements of one worker, each after whatever others do in the meantime. */
  function Among(q: Queue, steps: seq<Event>, gaps: seq<seq<Event>>): Queue
    requires |steps| == |gaps|
    decreases |steps|
  {
    if steps == [] then q else Among(Step(Run(q, gaps[0]), steps[0]).0, steps[1..], gaps[1..])
  }

  /** The queue that the last of them finds. */
  function BeforeLast(q: Queue, steps: seq<Event>, gaps: seq<seq<Event>>): Queue
    requires |steps| == |gaps| > 0
    decreases |steps|
  {
    if |steps| == 1 then Run(q, gaps[0]) else BeforeLast(Step(Run(q, gaps[0]), steps[0]).0, steps[1..], gaps[1..])
  }

  predicate OthersOnly(q: Queue, steps: seq<Event>, gaps: seq<seq<Event>>, token: string)
    requires |steps| == |gaps|
    decreases |steps|
  {
    steps == [] || (FreshTokens(q, gaps[0]) && Foreign(gaps[0], token)
                    && OthersOnly(Step(Run(q, gaps[0]), steps[0]).0, steps[1..], gaps[1..], token))
  }

  /** The report at the end of an attempt. */
  lemma {:induction false} ReportAmong(q: Queue, e: Event, gap: seq<Event>, token: string)
    requires InOrder(q) && token in q.taken && FreshTokens(q, gap) && Foreign(gap, token)
    requires (e.MarkSent? || e.Retry? || e.FinishFailure?) && e.token == token
    ensures BeforeLast(q, [e], [gap]) == Run(q, gap) && Among(q, [e], [gap]) == Step(Run(q, gap), e).0
    ensures var before, after := Run(q, gap), Step(Run(q, gap), e).0;
      && InOrder(before) && Respects(q, before, token) && !Owns(after, token) && before.links == after.links
      && (!Owns(before, token) ==> after == before)
      && (Owns(before, token) ==>
            var id := q.taken[token].id;
            && id in q.jobs && id in after.jobs && after == Put(before, id, after.jobs[id])
            && after.jobs[id].recipient == q.jobs[id].recipient && (after.jobs[id].status == Sent <==> e.MarkSent?))
  {
    OthersRespect(q, gap, token);
    var before := Run(q, gap);
    assert [e][1..] == [] && [gap][1..] == [];
    assert Among(Step(before, e).0, [], []) == Step(before, e).0;
    ReportNeedsClaim(before, e);
  }

  lemma SaveAmong(q: Queue, recipient: string, gap: seq<Event>, token: string) returns (next: Queue)
    requires InOrder(q) && token in q.taken && FreshTokens(q, gap) && Foreign(gap, token)
    ensures next == Step(Run(q, gap), SaveRecipient(token, recipient)).0
    ensures InOrder(next) && token in next.taken && next.taken[token] == q.taken[token]
    ensures Owns(next, token) ==> Owns(q, token) && next.jobs[q.taken[token].id] == q.jobs[q.taken[token].id].(recipient := recipient)
    ensures forall r :: r in q.requests ==> r in next.requests && next.requests[r].expiresAt == q.requests[r].expiresAt
  {
    OthersRespect(q, gap, token);
    StepKeepsOrder(Run(q, gap), SaveRecipient(token, recipient));
    next := Step(Run(q, gap), SaveRecipient(token, recipient)).0;
  }

  lemma LinkAmong(q: Queue, deadline: Option<nat>, gap: seq<Event>, token: string) returns (next: Queue)
    requires InOrder(q) && token in q.taken && FreshTokens(q, gap) && Foreign(gap, token)
    ensures next == Step(Run(q, gap), InsertLink(token, deadline)).0
    ensures InOrder(next) && token in next.taken && next.taken[token] == q.taken[token]
    ensures Owns(next, token) ==>
              && Owns(q, token) && next.jobs[q.taken[token].id] == q.jobs[q.taken[token].id]
              && var request := q.jobs[q.taken[token].id].request;
                 request.Some? && request.value in q.requests ==>
                   Link(request.value, Earlier(q.requests[request.value].expiresAt, deadline)) in next.links
  {
    OthersRespect(q, gap, token);
    var middle := Run(q, gap);
    StepKeepsOrder(middle, InsertLink(token, deadline));
    next := Step(middle, InsertLink(token, deadline)).0;
    if Owns(next, token) {
      var request := q.jobs[q.taken[token].id].request;
      if request.Some? && request.value in q.requests {
        assert next.links[|middle.links|] == Link(request.value, Earlier(q.requests[request.value].expiresAt, deadline));
      }
    }
  }

  /** How an attempt ends: the claim is over; if it was lost before the report, the report changed nothing; if it was
      still stored, the job is SENT exactly if `sent`, with the address and a link stored. */
  predicate AttemptEnds(q: Queue, before: Queue, final: Queue, token: string, sent: bool, order: Option<RecoveryOrder>)
    requires Owns(q, token) && (sent ==> order.Some? && Answerable(q, token))
  {
    var id := q.taken[token].id;
    && !Owns(final, token)
    && (!Owns(before, token) ==> final == before)
    && (Owns(before, token) ==>
          && id in final.jobs && final == Put(before, id, final.jobs[id])
          && (final.jobs[id].status == Sent <==> sent)
          && (sent ==> final.jobs[id].recipient == order.value.email && LinkFor(q, token, order.value.deadline) in final.links))
  }

  lemma {:induction false} DeliveringTwoAmong(q: Queue, token: string, order: RecoveryOrder, e: Event, gaps: seq<seq<Event>>)
    requires InOrder(q) && Owns(q, token) && |gaps| == 2 && (e.Retry? && e.token == token)
    requires OthersOnly(q, [SaveRecipient(token, order.email), e], gaps, token)
    ensures var steps := [SaveRecipient(token, order.email), e];
      AttemptEnds(q, BeforeLast(q, steps, gaps), Among(q, steps, gaps), token, false, Some(order))
  {
    var save := SaveRecipient(token, order.email);
    var saved := SaveAmong(q, order.email, gaps[0], token);
    assert [save, e][1..] == [e] && gaps[1..] == [gaps[1]];
    assert OthersOnly(saved, [e], [gaps[1]], token);
    ReportAmong(saved, e, gaps[1], token);
    assert BeforeLast(q, [save, e], gaps) == BeforeLast(saved, [e], [gaps[1]]);
    assert Among(q, [save, e], gaps) == Among(saved, [e], [gaps[1]]);
  }

  lemma {:induction false} DeliveringThreeAmong(q: Queue, token: string, order: RecoveryOrder, e: Event, gaps: seq<seq<Event>>)
    requires InOrder(q) && Owns(q, token) && Answerable(q, token) && |gaps| == 3 && (e.Retry? || e.MarkSent?) && e.token == token
    requires OthersOnly(q, [SaveRecipient(token, order.email), InsertLink(token, order.deadline), e], gaps, token)
    ensures var steps := [SaveRecipient(token, order.email), InsertLink(token, order.deadline), e];
      AttemptEnds(q, BeforeLast(q, steps, gaps), Among(q, steps, gaps), token, e.MarkSent?, Some(order))
  {
    var save, link := SaveRecipient(token, order.email), InsertLink(token, order.deadline);
    var saved := SaveAmong(q, order.email, gaps[0], token);
    assert [save, link, e][1..] == [link, e] && [link, e][1..] == [e] && gaps[1..][1..] == [gaps[2]];
    assert OthersOnly(saved, [link, e], gaps[1..], token);
    var linked := LinkAmong(saved, order.deadline, gaps[1], token);
    assert OthersOnly(linked, [e], [gaps[2]], token);
    ReportAmong(linked, e, gaps[2], token);
    assert BeforeLast(q, [save, link, e], gaps) == BeforeLast(saved, [link, e], gaps[1..]) == BeforeLast(linked, [e], [gaps[2]]);
    assert Among(q, [save, link, e], gaps) == Among(saved, [link, e], gaps[1..]) == Among(linked, [e], [gaps[2]]);
  }

  /** Whatever other workers, sweeps, retries, customers and the clock do between its statements, an attempt that began
      with a stored claim ends it.  If the claim was still stored at the report, the job is SENT exactly when nothing went
      wrong, the request was answerable and an eligible order with a usable address matches it, and then the address and
      a link that expires with the request or the order are stored; if it was lost before, the report changed nothing. */
  lemma {:induction false} AttemptAmongOthers(q: Queue, token: string, order: Option<RecoveryOrder>, fault: Fault, gaps: seq<seq<Event>>)
    requires InOrder(q) && Owns(q, token)
    requires |gaps| == |Recovering(q, token, order, fault)| && OthersOnly(q, Recovering(q, token, order, fault), gaps, token)
    ensures var steps := Recovering(q, token, order, fault);
      var sent := fault == NoFault && Answerable(q, token)
        && order.Some? && order.value.matches && order.value.eligible && order.value.mailbox;
      AttemptEnds(q, BeforeLast(q, steps, gaps), Among(q, steps, gaps), token, sent, order)
  {
    var steps := Recovering(q, token, order, fault);
    if |steps| == 1 {
      assert steps == [steps[0]] && gaps == [gaps[0]];
      ReportAmong(q, steps[0], gaps[0], token);
    } else if |steps| == 2 {
      DeliveringTwoAmong(q, token, order.value, steps[1], gaps);
    } else {
      DeliveringThreeAmong(q, token, order.value, steps[2], gaps);
    }
  }

  // ---------------------------------------------------------------- the service

  class MailService {
    var jobs: map<string, Job>
    var requests: map<string, Request>
    var links: seq<Link>
    var now: nat
    var count: nat
    ghost var taken: map<string, Taken>

    ghost function State(): Queue
      reads this
    {
      Queue(jobs, requests, links, taken, count, now)
    }

    constructor ()
      ensures State() == Queue(map[], map[], [], map[], 0, 0) && InOrder(State())
    {
      jobs, requests, links, now, count, taken := map[], map[], [], 0, 0, map[];
    }

    /** UPDATE ... WHERE status = 'PROCESSING' AND attempts >= 3 AND lease_until <= now. */
    method ExpireClaims()
      modifies this
      ensures State() == Step(old(State()), ExpireExhausted).0
    {
      jobs := map id | id in jobs :: if Exhausted(jobs[id], now) then Closed(jobs[id], Failed, WorkerStopped) else jobs[id];
    }

    /** UPDATE ... JOIN recovery_requests ... WHERE the request's deadline passed. */
    method ExpireRequests()
      modifies this
      ensures State() == Step(old(State()), ExpireRecovery).0
    {
      jobs := map id | id in jobs ::
        if && jobs[id].kind == Recovery && jobs[id].status == Pending
           && jobs[id].request.Some? && jobs[id].request.value in requests && requests[jobs[id].request.value].expiresAt <= now
        then Closed(jobs[id], Failed, RequestOverdue) else jobs[id];
    }

    method ClaimJob(id: string, token: string) returns (job: Option<Taken>)
      modifies this
      ensures State() == Step(old(State()), Claim(id, token)).0
      ensures job == if id in old(jobs) && Claimable(old(jobs[id]), old(now)) then Some(Taken(id, jobs[id].attempts)) else None
    {
      if id !in jobs || !Claimable(jobs[id], now) { return None; }
      var attempts := jobs[id].attempts + 1;
      jobs := jobs[id := jobs[id].(status := Processing, attempts := attempts, lease := Some(now + LeaseTime), token := Some(token))];
      taken := taken[token := Taken(id, attempts)];
      return Some(Taken(id, attempts));
    }

    /** `current` and `token` are what ClaimJob gave to this worker. */
    method ReportSent(current: Taken, token: string) returns (saved: bool)
      requires token in taken && taken[token] == current
      modifies this
      ensures State() == Step(old(State()), MarkSent(token)).0
      ensures saved == old(Owns(State(), token))
    {
      saved := current.id in jobs && jobs[current.id].status == Processing && jobs[current.id].token == Some(token);
      if saved {
        jobs := jobs[current.id := jobs[current.id].(status := Sent, lease := None, token := None, error := Blank)];
      }
    }

    method ReportRetry(current: Taken, token: string, reason: Message)
      requires token in taken && taken[token] == current
      modifies this
      ensures State() == Step(old(State()), Retry(token, reason)).0
    {
      var status, delay := Pending, 60;
      if current.attempts == 2 {
        delay := 300;
      } else if current.attempts >= MaxAttempts {
        status, delay := Failed, 0;
      }
      if current.id in jobs && jobs[current.id].status == Processing && jobs[current.id].token == Some(token) {
        jobs := jobs[current.id := jobs[current.id].(status := status, dueAt := now + delay, lease := None, token := None, error := reason)];
      }
    }

    method ReportFailure(current: Taken, token: string, reason: Message)
      requires token in taken && taken[token] == current
      modifies this
      ensures State() == Step(old(State()), FinishFailure(token, reason)).0
    {
      if current.id in jobs && jobs[current.id].status == Processing && jobs[current.id].token == Some(token) {
        jobs := jobs[current.id := jobs[current.id].(status := Failed, lease := None, token := None, error := reason)];
      }
    }

    method StoreRecipient(current: Taken, token: string, recipient: string)
      requires token in taken && taken[token] == current
      modifies this
      ensures State() == Step(old(State()), SaveRecipient(token, recipient)).0
    {
      if current.id in jobs && jobs[current.id].token == Some(token) {
        jobs := jobs[current.id := jobs[current.id].(recipient := recipient)];
      }
    }

    /** A fresh recovery token, valid until the deadline of the request or, if earlier, of the order. */
    method StoreLink(current: Taken, token: string, request: string, deadline: Option<nat>)
      requires token in taken && taken[token] == current && current.id in jobs
      requires jobs[current.id].request == Some(request) && request in requests
      modifies this`links
      ensures State() == Step(old(State()), InsertLink(token, deadline)).0
    {
      var expiresAt := requests[request].expiresAt;
      if deadline.Some? && deadline.value < expiresAt { expiresAt := deadline.value; }
      links := links + [Link(request, expiresAt)];
    }

    /** sendRecovery: every way out reports exactly once, and a link is delivered only to the address of an order that
        matches an unused request in time, for no longer than request and order allow. */
    method SendRecovery(current: Taken, token: string, order: Option<RecoveryOrder>, fault: Fault) returns (steps: seq<Event>)
      requires token in taken && taken[token] == current && current.id in jobs
      modifies this
      ensures State() == Run(old(State()), steps)
      ensures steps == Recovering(old(State()), token, order, fault)
    {
      var refusal := CheckRecovery(current, token, order, fault);
      if refusal.Some? {
        RunOne(old(State()), refusal.value);
        return [refusal.value];
      }
      steps := DeliverLink(current, token, jobs[current.id].request.value, order.value, fault);
    }

    method CheckRecovery(current: Taken, token: string, order: Option<RecoveryOrder>, fault: Fault) returns (refusal: Option<Event>)
      requires token in taken && taken[token] == current && current.id in jobs
      modifies this
      ensures refusal == Refusal(old(State()), token, order, fault)
      ensures State() == if refusal.Some? then Step(old(State()), refusal.value).0 else old(State())
    {
      if fault == RequestUnreadable {
        ReportRetry(current, token, Because(fault));
        return Some(Retry(token, Because(fault)));
      }
      var request := jobs[current.id].request;
      if request.None? || request.value !in requests || requests[request.value].used || requests[request.value].expiresAt <= now {
        ReportFailure(current, token, RequestOverdue);
        return Some(FinishFailure(token, RequestOverdue));
      }
      if fault == OrderUnreadable {
        ReportRetry(current, token, Because(fault));
        return Some(Retry(token, Because(fault)));
      }
      if order.None? || !order.value.matches || !order.value.eligible {
        ReportFailure(current, token, NoMatch);
        return Some(FinishFailure(token, NoMatch));
      }
      if !order.value.mailbox {
        ReportFailure(current, token, BadAddress);
        return Some(FinishFailure(token, BadAddress));
      }
      if fault == RecipientUnsaved {
        ReportRetry(current, token, Because(fault));
        return Some(Retry(token, Because(fault)));
      }
      return None;
    }

    method DeliverLink(current: Taken, token: string, request: string, order: RecoveryOrder, fault: Fault) returns (steps: seq<Event>)
      requires token in taken && taken[token] == current && current.id in jobs
      requires jobs[current.id].request == Some(request) && request in requests
      modifies this
      ensures State() == Run(old(State()), steps)
      ensures steps == Delivering(token, order, fault)
    {
      ghost var before := State();
      StoreRecipient(current, token, order.email);
      var save, link := SaveRecipient(token, order.email), InsertLink(token, order.deadline);
      if fault == TokenUnmade || fault == DeadlineUnreadable || fault == TokenUnstored {
        ReportRetry(current, token, Because(fault));
        RunTwo(before, save, Retry(token, Because(fault)));
        return [save, Retry(token, Because(fault))];
      }
      StoreLink(current, token, request, order.deadline);
      if fault == NotRendered || fault == NotDelivered {
        ReportRetry(current, token, Because(fault));
        RunThree(before, save, link, Retry(token, Because(fault)));
        return [save, link, Retry(token, Because(fault))];
      }
      var kept := ReportSent(current, token);
      RunThree(before, save, link, MarkSent(token));
      return [save, link, MarkSent(token)];
    }

    method RetryEmailJob(id: string, newId: string, facts: Facts) returns (r: Outcome)
      modifies this
      ensures (State(), r) == Step(old(State()), RetryJob(id, newId, facts))
    {
      if id !in jobs { return NotFound; }
      var job := jobs[id];
      if job.status != Failed || job.successor.Some? { return Conflict; }
      var retryId := id;
      match job.kind {
      case Tickets =>
        if job.order.None? || !facts.ready { return Conflict; }
        if facts.limited { return RateLimited; }
        Restart(id, facts.recipient);
      case Recovery =>
        if job.request.None? || job.request.value !in requests || requests[job.request.value].used || !facts.ready { return Conflict; }
        if facts.limited { return RateLimited; }
        if newId in requests || newId in jobs { return Unavailable; }
        retryId := newId;
        requests := requests[newId := Request(now + RequestTTL, false)];
        jobs := jobs[newId := Job(Recovery, Pending, 0, now, None, None, None, Some(newId), "", Blank, None, count)];
        count := count + 1;
        if jobs[id].status == Failed && jobs[id].successor.None? { jobs := jobs[id := jobs[id].(successor := Some(newId))]; }
      case Refund =>
        if job.order.None? || !facts.ready { return Conflict; }
        if facts.limited { return RateLimited; }
        Restart(id, facts.recipient);
      case EventChange =>
        if !facts.ready { return Unavailable; }
        if facts.limited { return RateLimited; }
        Restart(id, facts.recipient);
      }
      return Retried(retryId);
    }

    method Restart(id: string, recipient: string)
      requires id in jobs && jobs[id].status == Failed
      modifies this
      ensures State() == Put(old(State()), id, Restarted(old(jobs[id]), old(now), recipient))
    {
      jobs := jobs[id := jobs[id].(recipient := recipient, attempts := 0, dueAt := now, error := Blank, token := None, lease := None, status := Pending)];
    }
  }
}
