/** What each statement on the e-mail queue answers and leaves, told from the rows alone. */
module EmailEffects {
  import opened Options
  import opened EmailRetry

  /** One row differs at most; requests, links and the clock are as they were. */
  predicate OnlyRow(q: Queue, next: Queue, id: string) {
    && next.requests == q.requests && next.links == q.links && next.count == q.count && next.now == q.now
    && next.jobs.Keys == q.jobs.Keys && forall other :: other in q.jobs && other != id ==> next.jobs[other] == q.jobs[other]
  }

  /** The row waits to be sent, from the first attempt, at once. */
  predicate FromTheStart(job: Job, now: nat) {
    job.status == Pending && job.attempts == 0 && job.dueAt == now && job.error == Blank
  }

  predicate SameOrigin(before: Job, after: Job) {
    && after.kind == before.kind && after.order == before.order && after.request == before.request
    && after.serial == before.serial && after.successor == before.successor
  }

  // ---------------------------------------------------------------- an administrator's retry

  predicate Revivable(q: Queue, id: string) {
    id in q.jobs && q.jobs[id].status == Failed && q.jobs[id].successor == None
  }

  /** The request behind a recovery job is there and nobody used it. */
  predicate Unused(q: Queue, id: string)
    requires id in q.jobs
  {
    q.jobs[id].request.Some? && q.jobs[id].request.value in q.requests && !q.requests[q.jobs[id].request.value].used
  }

  /** What each kind asks of the rest of the database. */
  predicate Ready(q: Queue, id: string, facts: Facts)
    requires id in q.jobs
  {
    && facts.ready
    && (q.jobs[id].kind == Recovery ==> Unused(q, id))
    && (q.jobs[id].kind == Tickets || q.jobs[id].kind == Refund ==> q.jobs[id].order.Some?)
  }

  predicate FreshId(q: Queue, newId: string) {
    newId !in q.jobs && newId !in q.requests
  }

  /** A retry is granted exactly for a failed job that no other follows, which is ready and within its rate, and for a
      recovery under a fresh id; each refusal has its own condition. */
  lemma RetryAnswers(q: Queue, id: string, newId: string, facts: Facts)
    ensures var r := Step(q, RetryJob(id, newId, facts)).1;
      && (r.Retried? <==>
            Revivable(q, id) && Ready(q, id, facts) && !facts.limited && (q.jobs[id].kind == Recovery ==> FreshId(q, newId)))
      && (r == NotFound <==> id !in q.jobs)
      && (r == RateLimited <==> Revivable(q, id) && Ready(q, id, facts) && facts.limited)
      && (r == Conflict <==> id in q.jobs && (!Revivable(q, id) || (q.jobs[id].kind != EventChange && !Ready(q, id, facts))))
      && (r == Unavailable <==>
            Revivable(q, id)
            && (|| (q.jobs[id].kind == EventChange && !Ready(q, id, facts))
                || (q.jobs[id].kind == Recovery && Ready(q, id, facts) && !facts.limited && !FreshId(q, newId))))
      && r != Done
  {
  }

  /** A granted retry sends tickets, refunds and event changes again from the start, to the address found now. */
  lemma ResetEffects(q: Queue, id: string, newId: string, facts: Facts)
    requires Step(q, RetryJob(id, newId, facts)).1.Retried? && q.jobs[id].kind != Recovery
    ensures var (next, r) := Step(q, RetryJob(id, newId, facts));
      && r == Retried(id) && OnlyRow(q, next, id) && next.taken == q.taken
      && FromTheStart(next.jobs[id], q.now) && SameOrigin(q.jobs[id], next.jobs[id])
      && next.jobs[id].recipient == facts.recipient && next.jobs[id].token == None && next.jobs[id].lease == None
  {
  }

  /** A granted retry of a recovery queues a new request for 900 seconds with a new job, and marks the failed one. */
  lemma SupersedeEffects(q: Queue, id: string, newId: string, facts: Facts)
    requires Step(q, RetryJob(id, newId, facts)).1.Retried? && q.jobs[id].kind == Recovery
    ensures var (next, r) := Step(q, RetryJob(id, newId, facts));
      && r == Retried(newId) && id != newId
      && next.requests == q.requests[newId := Request(q.now + 900, false)]
      && next.jobs.Keys == q.jobs.Keys + {newId} && next.jobs[id] == q.jobs[id].(successor := Some(newId))
      && (forall other :: other in q.jobs && other != id ==> next.jobs[other] == q.jobs[other])
      && FromTheStart(next.jobs[newId], q.now) && next.jobs[newId].kind == Recovery && next.jobs[newId].request == Some(newId)
      && next.jobs[newId].order == None && next.jobs[newId].recipient == "" && next.jobs[newId].successor == None
      && next.jobs[newId].token == None && next.jobs[newId].lease == None && next.jobs[newId].serial == q.count
      && next.count == q.count + 1 && next.links == q.links && next.taken == q.taken && next.now == q.now
  {
  }

  lemma RefusedRetryChangesNothing(q: Queue, id: string, newId: string, facts: Facts)
    requires !Step(q, RetryJob(id, newId, facts)).1.Retried?
    ensures Step(q, RetryJob(id, newId, facts)).0 == q
  {
  }

  // ---------------------------------------------------------------- used requests over whole runs

  /** Requests only come, keep their deadline and, once used, stay used; and rows keep their request. */
  predicate RequestsStay(q: Queue, next: Queue) {
    && (forall r :: r in q.requests ==>
          r in next.requests && next.requests[r].expiresAt == q.requests[r].expiresAt && (q.requests[r].used ==> next.requests[r].used))
    && JobsKeepRequest(q, next)
  }

  predicate JobsKeepRequest(q: Queue, next: Queue) {
    forall id :: id in q.jobs ==> id in next.jobs && next.jobs[id].request == q.jobs[id].request
  }

  lemma RetryKeepsRequests(q: Queue, id: string, newId: string, facts: Facts)
    ensures RequestsStay(q, Step(q, RetryJob(id, newId, facts)).0)
  {
  }

  lemma OthersKeepRequests(q: Queue, e: Event)
    requires !e.RetryJob?
    ensures RequestsStay(q, Step(q, e).0)
    ensures forall id :: id in q.jobs ==> Step(q, e).0.jobs[id].successor == q.jobs[id].successor
  {
    var next := Step(q, e).0;
    OthersKeepSuccessors(q, e);
    OthersKeepOrigins(q, e);
    assert next.requests == q.requests || e.AskRecovery? || e.UseRequest?;
  }

  lemma OthersKeepOrigins(q: Queue, e: Event)
    requires !e.RetryJob?
    ensures JobsKeepRequest(q, Step(q, e).0)
  {
  }

  lemma OthersKeepSuccessors(q: Queue, e: Event)
    requires !e.RetryJob?
    ensures forall id :: id in q.jobs ==> id in Step(q, e).0.jobs && Step(q, e).0.jobs[id].successor == q.jobs[id].successor
  {
  }

  /** The event queues a successor of the job, whose request is unused at that moment. */
  predicate Follows(q: Queue, e: Event, id: string, successor: string) {
    && e.RetryJob? && e.id == id && e.newId == successor && e.facts.ready && !e.facts.limited
    && Revivable(q, id) && q.jobs[id].kind == Recovery && Unused(q, id)
  }

  lemma RetryFollows(q: Queue, e: Event, id: string)
    requires e.RetryJob? && id in q.jobs && q.jobs[id].successor == None
    ensures id in Step(q, e).0.jobs
    ensures Step(q, e).0.jobs[id].successor.Some? ==> Follows(q, e, id, Step(q, e).0.jobs[id].successor.value)
  {
    var r := Step(q, e).1;
    RetryAnswers(q, e.id, e.newId, e.facts);
    if !r.Retried? {
      RefusedRetryChangesNothing(q, e.id, e.newId, e.facts);
    } else if q.jobs[e.id].kind == Recovery {
      SupersedeEffects(q, e.id, e.newId, e.facts);
    } else {
      ResetEffects(q, e.id, e.newId, e.facts);
    }
  }

  lemma SuccessorStays(q: Queue, e: Event, id: string)
    requires id in q.jobs && q.jobs[id].successor.Some?
    ensures id in Step(q, e).0.jobs && Step(q, e).0.jobs[id].successor == q.jobs[id].successor
  {
    if e.RetryJob? {
      RetryAnswers(q, e.id, e.newId, e.facts);
      if !Step(q, e).1.Retried? {
        RefusedRetryChangesNothing(q, e.id, e.newId, e.facts);
      } else if q.jobs[e.id].kind == Recovery {
        SupersedeEffects(q, e.id, e.newId, e.facts);
      } else {
        ResetEffects(q, e.id, e.newId, e.facts);
      }
    } else {
      OthersKeepSuccessors(q, e);
    }
  }

  lemma {:induction false} SuccessorsStay(q: Queue, events: seq<Event>, id: string)
    requires id in q.jobs && q.jobs[id].successor.Some?
    ensures id in Run(q, events).jobs && Run(q, events).jobs[id].successor == q.jobs[id].successor
    decreases |events|
  {
    if events != [] {
      SuccessorStays(q, events[0], id);
      SuccessorsStay(Step(q, events[0]).0, events[1..], id);
    }
  }

  /** Over every run each new successor was queued by a granted retry, at a moment when nobody had used the request. */
  lemma {:induction false} SuccessorsFollowUnusedRequests(q: Queue, events: seq<Event>, id: string) returns (j: nat)
    requires id in q.jobs && q.jobs[id].successor == None
    requires id in Run(q, events).jobs && Run(q, events).jobs[id].successor.Some?
    ensures j < |events| && Follows(Run(q, events[..j]), events[j], id, Run(q, events).jobs[id].successor.value)
    decreases |events|
  {
    var next := Step(q, events[0]).0;
    if events[0].RetryJob? { RetryFollows(q, events[0], id); } else { OthersKeepSuccessors(q, events[0]); }
    if next.jobs[id].successor.Some? {
      j := 0;
      SuccessorsStay(next, events[1..], id);
      assert events[..0] == [];
    } else {
      var i := SuccessorsFollowUnusedRequests(next, events[1..], id);
      j := i + 1;
      assert events[..j][1..] == events[1..][..i];
    }
  }

  lemma UsedStepStays(q: Queue, e: Event, id: string)
    requires id in q.jobs && q.jobs[id].successor == None && q.jobs[id].request.Some? && q.jobs[id].request.value in q.requests
    requires q.requests[q.jobs[id].request.value].used
    ensures var next := Step(q, e).0;
      && id in next.jobs && next.jobs[id].successor == None && next.jobs[id].request == q.jobs[id].request
      && q.jobs[id].request.value in next.requests && next.requests[q.jobs[id].request.value].used
  {
    if e.RetryJob? {
      RetryKeepsRequests(q, e.id, e.newId, e.facts);
      RetryFollows(q, e, id);
    } else {
      OthersKeepRequests(q, e);
    }
  }

  /** Once its request was used, a job never gets a successor. */
  lemma {:induction false} UsedIsNeverFollowed(q: Queue, events: seq<Event>, id: string)
    requires id in q.jobs && q.jobs[id].successor == None && q.jobs[id].request.Some? && q.jobs[id].request.value in q.requests
    requires q.requests[q.jobs[id].request.value].used
    ensures id in Run(q, events).jobs && Run(q, events).jobs[id].successor == None
    decreases |events|
  {
    if events != [] {
      UsedStepStays(q, events[0], id);
      UsedIsNeverFollowed(Step(q, events[0]).0, events[1..], id);
    }
  }

  // ---------------------------------------------------------------- workers

  /** A worker gets a job exactly if its turn has come, or its last worker was silent for 60 seconds, with an attempt of
      three left; then the row bears its claim for 60 seconds and one more attempt. */
  lemma ClaimEffects(q: Queue, id: string, token: string)
    ensures var next := Step(q, Claim(id, token)).0;
      var free := id in q.jobs && q.jobs[id].attempts < 3
        && (|| (q.jobs[id].status == Pending && q.jobs[id].dueAt <= q.now)
            || (q.jobs[id].status == Processing && q.jobs[id].lease.Some? && q.jobs[id].lease.value <= q.now));
      && (!free ==> next == q)
      && (free ==>
            && OnlyRow(q, next, id) && next.taken == q.taken[token := Taken(id, q.jobs[id].attempts + 1)]
            && next.jobs[id] == q.jobs[id].(status := Processing, attempts := q.jobs[id].attempts + 1, token := Some(token), lease := Some(q.now + 60)))
  {
  }

  predicate Stored(q: Queue, token: string) {
    token in q.taken && q.taken[token].id in q.jobs
    && q.jobs[q.taken[token].id].status == Processing && q.jobs[q.taken[token].id].token == Some(token)
  }

  /** The claim is gone and the row reads so; nothing else moved. */
  predicate Reported(q: Queue, next: Queue, token: string, status: Status, dueAt: nat, error: Message)
    requires Stored(q, token)
  {
    var id := q.taken[token].id;
    && OnlyRow(q, next, id) && next.taken == q.taken
    && next.jobs[id] == q.jobs[id].(status := status, dueAt := dueAt, token := None, lease := None, error := error)
  }

  /** A report under a stored claim: sent, failed for good, or once more after 60 seconds, after 300 the second time, and
      failed the third time.  Any other report changes nothing. */
  lemma ReportEffects(q: Queue, token: string, reason: Message)
    ensures !Stored(q, token) ==>
              Step(q, MarkSent(token)).0 == q && Step(q, FinishFailure(token, reason)).0 == q && Step(q, Retry(token, reason)).0 == q
    ensures Step(q, MarkSent(token)).1 == Done <==> Stored(q, token)
    ensures Stored(q, token) ==>
              var dueAt, n := q.jobs[q.taken[token].id].dueAt, q.taken[token].attempts;
              && Reported(q, Step(q, MarkSent(token)).0, token, Sent, dueAt, Blank)
              && Reported(q, Step(q, FinishFailure(token, reason)).0, token, Failed, dueAt, reason)
              && (n < 2 ==> Reported(q, Step(q, Retry(token, reason)).0, token, Pending, q.now + 60, reason))
              && (n == 2 ==> Reported(q, Step(q, Retry(token, reason)).0, token, Pending, q.now + 300, reason))
              && (n > 2 ==> Reported(q, Step(q, Retry(token, reason)).0, token, Failed, q.now, reason))
  {
  }

  /** The address is stored under the claim's token; a link is issued for the job's request until its deadline or, if
      earlier, the order's. */
  lemma DeliveryEffects(q: Queue, token: string, recipient: string, deadline: Option<nat>)
    requires token in q.taken && q.taken[token].id in q.jobs
    ensures var id, next := q.taken[token].id, Step(q, SaveRecipient(token, recipient)).0;
      && (q.jobs[id].token == Some(token) ==>
            OnlyRow(q, next, id) && next.taken == q.taken && next.jobs[id] == q.jobs[id].(recipient := recipient))
      && (q.jobs[id].token != Some(token) ==> next == q)
    ensures var request, next := q.jobs[q.taken[token].id].request, Step(q, InsertLink(token, deadline)).0;
      && next == q.(links := next.links)
      && (request.Some? && request.value in q.requests ==>
            && |next.links| == |q.links| + 1 && next.links[..|q.links|] == q.links
            && next.links[|q.links|].request == request.value
            && next.links[|q.links|].expiresAt <= q.requests[request.value].expiresAt
            && (deadline.Some? ==> next.links[|q.links|].expiresAt <= deadline.value)
            && (next.links[|q.links|].expiresAt == q.requests[request.value].expiresAt || deadline == Some(next.links[|q.links|].expiresAt)))
  {
  }

  /** The request of the claimed job is there, unused and in time. */
  predicate InTime(q: Queue, token: string)
    requires token in q.taken && q.taken[token].id in q.jobs
  {
    Unused(q, q.taken[token].id) && q.requests[q.jobs[q.taken[token].id].request.value].expiresAt > q.now
  }

  /** An order was found that matches the pair, is eligible and has a usable address. */
  predicate Deliverable(order: Option<RecoveryOrder>) {
    order.Some? && order.value.matches && order.value.eligible && order.value.mailbox
  }

  /** How an attempt at a recovery link ends: failed for good when the request is over, when no eligible order matches or
      when its address is unusable; tried again when something broke before or after that; sent otherwise. */
  lemma AttemptReports(q: Queue, token: string, order: Option<RecoveryOrder>, fault: Fault)
    requires token in q.taken && q.taken[token].id in q.jobs
    ensures var steps := Recovering(q, token, order, fault);
      |steps| > 0
      && var last := steps[|steps| - 1];
         var read, found := fault != RequestUnreadable && InTime(q, token), fault != RequestUnreadable && fault != OrderUnreadable && InTime(q, token);
         && (last == FinishFailure(token, RequestOverdue) <==> fault != RequestUnreadable && !InTime(q, token))
         && (last == FinishFailure(token, NoMatch) <==> found && (order.None? || !order.value.matches || !order.value.eligible))
         && (last == FinishFailure(token, BadAddress) <==>
               found && order.Some? && order.value.matches && order.value.eligible && !order.value.mailbox)
         && (last == MarkSent(token) <==> fault == NoFault && InTime(q, token) && Deliverable(order))
         && (last == Retry(token, Because(fault)) <==>
               || fault == RequestUnreadable
               || (fault == OrderUnreadable && read)
               || (fault != NoFault && found && Deliverable(order)))
  {
  }

  /** The address is stored before a link is issued, a link before the report, and no link unless one is delivered. */
  lemma AttemptStatements(q: Queue, token: string, order: Option<RecoveryOrder>, fault: Fault)
    requires token in q.taken && q.taken[token].id in q.jobs
    ensures var steps := Recovering(q, token, order, fault);
      var reached := fault !in {RequestUnreadable, OrderUnreadable, RecipientUnsaved} && InTime(q, token) && Deliverable(order);
      var linked := reached && fault !in {TokenUnmade, DeadlineUnreadable, TokenUnstored};
      && (|steps| == if linked then 3 else if reached then 2 else 1)
      && (reached ==> steps[0] == SaveRecipient(token, order.value.email))
      && (linked ==> steps[1] == InsertLink(token, order.value.deadline))
  {
  }

  // ---------------------------------------------------------------- sweeps and customers

  predicate OnlyRows(q: Queue, next: Queue) {
    next.requests == q.requests && next.links == q.links && next.taken == q.taken && next.count == q.count && next.now == q.now
    && next.jobs.Keys == q.jobs.Keys
  }

  /** The sweeps fail exactly the jobs whose worker went silent on the last attempt, and exactly the waiting recoveries
      whose request is over; they touch no other row. */
  lemma SweepEffects(q: Queue, id: string)
    requires id in q.jobs
    ensures OnlyRows(q, Step(q, ExpireExhausted).0) && OnlyRows(q, Step(q, ExpireRecovery).0)
    ensures var job := q.jobs[id];
      Step(q, ExpireExhausted).0.jobs[id] ==
        if job.status == Processing && job.attempts >= 3 && job.lease.Some? && job.lease.value <= q.now
        then job.(status := Failed, token := None, lease := None, error := WorkerStopped) else job
    ensures var job := q.jobs[id];
      Step(q, ExpireRecovery).0.jobs[id] ==
        if job.kind == Recovery && job.status == Pending && job.request.Some? && job.request.value in q.requests
           && q.requests[job.request.value].expiresAt <= q.now
        then job.(status := Failed, token := None, lease := None, error := RequestOverdue) else job
  {
  }

  /** A new row: at the end of the order of insertion, to be sent from the start, with no claim and no successor. */
  predicate Inserted(q: Queue, next: Queue, id: string, kind: Kind, order: Option<string>, request: Option<string>, recipient: string) {
    && id !in q.jobs && next.jobs == q.jobs[id := Job(kind, Pending, 0, q.now, None, None, order, request, recipient, Blank, None, q.count)]
    && next.count == q.count + 1 && next.links == q.links && next.taken == q.taken && next.now == q.now
  }

  lemma EnqueueEffects(q: Queue, id: string, kind: Kind, order: Option<string>, recipient: string)
    ensures var next := Step(q, Enqueue(id, kind, order, recipient)).0;
      if id in q.jobs || kind == Recovery then next == q
      else Inserted(q, next, id, kind, order, None, recipient) && next.requests == q.requests
    ensures var (next, r) := Step(q, AskRecovery(id));
      if FreshId(q, id) then r == Done && Inserted(q, next, id, Recovery, None, Some(id), "") && next.requests == q.requests[id := Request(q.now + 900, false)]
      else r == Unavailable && next == q
  {
  }

  /** The customer's resend inserts the tickets' job or restarts it once it was sent or failed; a job under way stays. */
  lemma ResendEffects(q: Queue, id: string, recipient: string)
    ensures var next := Step(q, Resend(id, recipient)).0;
      if id !in q.jobs then Inserted(q, next, id, Tickets, Some(id), None, recipient) && next.requests == q.requests
      else if q.jobs[id].kind == Tickets && (q.jobs[id].status == Sent || q.jobs[id].status == Failed) then
        && OnlyRow(q, next, id) && next.taken == q.taken
        && FromTheStart(next.jobs[id], q.now) && SameOrigin(q.jobs[id], next.jobs[id]) && next.jobs[id].recipient == recipient
      else next == q
  {
  }

  /** Using a request marks it and nothing else; the clock moves alone. */
  lemma UseAndTick(q: Queue, id: string, elapsed: nat)
    ensures Step(q, UseRequest(id)).0 == if id in q.requests then q.(requests := q.requests[id := Request(q.requests[id].expiresAt, true)]) else q
    ensures Step(q, Tick(elapsed)).0 == q.(now := q.now + elapsed)
  {
  }
}
