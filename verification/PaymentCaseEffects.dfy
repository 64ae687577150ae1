/** What each transaction on a payment case answers and leaves, told from the case's columns alone. */
module PaymentCaseEffects {
  import opened Options
  import opened PaymentCases

  /** The case is OPEN and no running lease protects it. */
  predicate Free(w: World, id: nat) {
    id in w.cases && w.cases[id].status == Open && (w.cases[id].lease.None? || w.cases[id].lease.value <= w.now)
  }

  /** Every case but this one is as it was, and the clock too. */
  predicate OthersStay(w: World, next: World, id: nat) {
    && next.now == w.now
    && next.cases.Keys == w.cases.Keys && forall other :: other in w.cases && other != id ==> next.cases[other] == w.cases[other]
  }

  /** The audit has exactly one more entry. */
  predicate Audited(w: World, next: World, kind: AuditKind, id: nat, text: string) {
    |next.audit| == |w.audit| + 1 && next.audit[..|w.audit|] == w.audit && next.audit[|w.audit|] == Audit(kind, id, text)
  }

  /** The tables and the clock; the histories are not seen by anyone. */
  predicate TablesStay(w: World, next: World) {
    next.cases == w.cases && next.audit == w.audit && next.now == w.now
  }

  // ---------------------------------------------------------------- a provider's answer

  /** The answer meets the case that it was asked for, still under its claim. */
  predicate Lands(w: World, id: nat, claim: string, gatewayId: string) {
    && id in w.cases && w.cases[id].status == Open && w.cases[id].token == Some(claim) && w.cases[id].gatewayId == gatewayId
  }

  /** Payment, case and provider name one amount. */
  predicate AmountsAgree(w: World, id: nat, payment: Option<nat>, reply: Reply)
    requires id in w.cases
  {
    payment == Some(w.cases[id].amount) && reply.gross == Some(w.cases[id].amount)
  }

  /** The recheck is over: no claim, checked now; the rest of the case is as it was but for provider status and error. */
  predicate RecheckOver(w: World, next: World, id: nat, provider: string, error: string) {
    && id in w.cases && id in next.cases && OthersStay(w, next, id)
    && var before, after := w.cases[id], next.cases[id];
       && after.token == None && after.lease == None && after.lastChecked == Some(w.now)
       && after.providerStatus == provider && after.lastError == error
       && after.status == before.status && after.gatewayId == before.gatewayId && after.amount == before.amount
  }

  /** An answer is good exactly if it lands, the amounts agree and the payment accepts the status. */
  lemma AnswerResults(w: World, id: nat, claim: string, gatewayId: string, payment: Option<nat>, reply: Reply)
    ensures var r := Step(w, ProviderReplied(id, claim, gatewayId, payment, reply)).1;
      && (r == Ok <==> Lands(w, id, claim, gatewayId) && AmountsAgree(w, id, payment, reply) && reply.verdict == Accepted)
      && (r == ProviderFailure <==>
            Lands(w, id, claim, gatewayId) && payment.Some? && (!AmountsAgree(w, id, payment, reply) || reply.verdict == Refused))
      && (r == Conflict <==> payment.Some? && id in w.cases && !Lands(w, id, claim, gatewayId))
      && (r == NotFound <==> payment.Some? && id !in w.cases)
      && (r == Unavailable <==>
            payment.None? || (Lands(w, id, claim, gatewayId) && AmountsAgree(w, id, payment, reply) && reply.verdict == Broken))
  {
  }

  /** A good answer stores the provider's status without an error and is audited as CHECKED; a mismatch leaves the
      provider's status, stores its reason and is audited as FAILED with it; nothing else changes anything. */
  lemma AnswerEffects(w: World, id: nat, claim: string, gatewayId: string, payment: Option<nat>, reply: Reply)
    ensures var (next, r) := Step(w, ProviderReplied(id, claim, gatewayId, payment, reply));
      && (r == Ok ==>
            RecheckOver(w, next, id, reply.status, "") && Audited(w, next, Checked, id, reply.status))
      && (r == ProviderFailure ==>
            var reason := if AmountsAgree(w, id, payment, reply) then "Status provider tidak lolos validasi pembayaran."
                          else "Nominal provider berbeda dari nominal pesanan.";
            RecheckOver(w, next, id, w.cases[id].providerStatus, reason) && Audited(w, next, Failed, id, reason))
      && (r != Ok && r != ProviderFailure ==> next == w)
  {
  }

  /** A failed call to the provider: under its claim it stores the reason and is audited as FAILED, else it is refused. */
  lemma FailureEffects(w: World, id: nat, claim: string, reason: string)
    ensures var (next, r) := Step(w, ProviderFailed(id, claim, reason));
      && (r == Ok <==> id in w.cases && w.cases[id].status == Open && w.cases[id].token == Some(claim))
      && (r == NotFound <==> id !in w.cases)
      && (r == Ok || r == NotFound || r == Conflict)
      && (r == Ok ==> RecheckOver(w, next, id, w.cases[id].providerStatus, reason) && Audited(w, next, Failed, id, reason))
      && (r != Ok ==> next == w)
  {
  }

  // ---------------------------------------------------------------- the other transactions

  /** A recheck starts exactly on a free case within its rate; then the case holds the new claim for 30 seconds. */
  lemma StartEffects(w: World, id: nat, claim: string, limited: bool)
    ensures var (next, r) := Step(w, Start(id, claim, limited));
      && (r == Ok <==> Free(w, id) && !limited)
      && (r == RateLimited <==> Free(w, id) && limited)
      && (r == NotFound <==> id !in w.cases)
      && (r == Conflict <==> id in w.cases && !Free(w, id))
      && (r == Ok ==>
            && OthersStay(w, next, id) && Audited(w, next, Started, id, "STARTED")
            && next.cases[id] == w.cases[id].(token := Some(claim), lease := Some(w.now + 30)))
      && (r != Ok ==> next == w)
  {
  }

  /** An administrator resolves exactly a free case; its claim goes, and the note is audited. */
  lemma ResolveEffects(w: World, id: nat, note: string)
    ensures var (next, r) := Step(w, Resolve(id, note));
      && (r == Ok <==> Free(w, id))
      && (r == NotFound <==> id !in w.cases)
      && (r == Conflict <==> id in w.cases && !Free(w, id))
      && (r == Ok ==>
            && OthersStay(w, next, id) && Audited(w, next, ResolvedByAdmin, id, note)
            && next.cases[id] == w.cases[id].(status := Resolved, token := None, lease := None))
      && (r != Ok ==> next == w)
  {
  }

  /** A note can be added to any case and changes no case. */
  lemma NoteEffects(w: World, id: nat, note: string)
    ensures var (next, r) := Step(w, AddNote(id, note));
      && (r == Ok <==> id in w.cases) && (r == NotFound <==> id !in w.cases)
      && next.cases == w.cases && next.now == w.now
      && (r == Ok ==> Audited(w, next, Noted, id, note)) && (r != Ok ==> next == w)
  {
  }

  /** The other writers: a report opens a case or refreshes what the provider says of it, a settled refund closes an open
      case and leaves its claim, and neither writes the audit. */
  lemma ElsewhereEffects(w: World, id: nat, gatewayId: string, amount: nat, provider: string, elapsed: nat)
    ensures var next := Step(w, CaseReported(id, gatewayId, amount, provider)).0;
      && next.audit == w.audit && next.now == w.now && next.cases.Keys == w.cases.Keys + {id}
      && (forall other :: other in w.cases && other != id ==> next.cases[other] == w.cases[other])
      && next.cases[id] == (if id in w.cases then w.cases[id].(providerStatus := provider)
                            else Case(Open, gatewayId, amount, None, None, provider, "", None))
    ensures var next := Step(w, RefundSettled(id)).0;
      && next.audit == w.audit && OthersStay(w, next, id)
      && (id in w.cases ==> next.cases[id] == w.cases[id].(status := Resolved))
    ensures var next := Step(w, Tick(elapsed)).0;
      next.now == w.now + elapsed && next.cases == w.cases && next.audit == w.audit
  {
  }

  // ---------------------------------------------------------------- CHECKED entries of a whole run

  /** Event e, met by w, is an answer that was checked: it lands, the amounts agree and its status was accepted. */
  predicate IsCheckedAnswer(w: World, e: Event, entry: Audit) {
    && e.ProviderReplied? && Lands(w, e.id, e.claim, e.gatewayId) && AmountsAgree(w, e.id, e.payment, e.reply)
    && e.reply.verdict == Accepted && entry == Audit(Checked, e.id, e.reply.status)
  }

  lemma StepAudits(w: World, e: Event)
    ensures var next := Step(w, e).0;
      && w.audit <= next.audit && |next.audit| <= |w.audit| + 1
      && (|next.audit| > |w.audit| && next.audit[|w.audit|].kind == Checked ==> IsCheckedAnswer(w, e, next.audit[|w.audit|]))
  {
    if e.ProviderReplied? {
      AnswerResults(w, e.id, e.claim, e.gatewayId, e.payment, e.reply);
      AnswerEffects(w, e.id, e.claim, e.gatewayId, e.payment, e.reply);
    }
  }

  lemma {:induction false} RunSplits(w: World, events: seq<Event>, j: nat)
    requires 0 < j <= |events|
    ensures Run(Step(w, events[0]).0, events[1..][..j - 1]) == Run(w, events[..j])
  {
    assert events[..j][1..] == events[1..][..j - 1];
  }

  /** Over every run each new CHECKED entry was written by an answer that, at its moment, held its claim, agreed in the
      amounts and was accepted. */
  lemma {:induction false} CheckedMeansChecked(w: World, events: seq<Event>, k: nat) returns (j: nat)
    requires |w.audit| <= k < |Run(w, events).audit| && Run(w, events).audit[k].kind == Checked
    ensures j < |events| && IsCheckedAnswer(Run(w, events[..j]), events[j], Run(w, events).audit[k])
    decreases |events|
  {
    var next := Step(w, events[0]).0;
    StepAudits(w, events[0]);
    if k < |next.audit| {
      j := 0;
      AuditGrows(next, events[1..]);
      assert next.audit[k] == Run(next, events[1..]).audit[k];
      assert events[..0] == [];
    } else {
      var i := CheckedMeansChecked(next, events[1..], k);
      j := i + 1;
      RunSplits(w, events, j);
    }
  }

  lemma {:induction false} AuditGrows(w: World, events: seq<Event>)
    ensures w.audit <= Run(w, events).audit
    decreases |events|
  {
    if events != [] {
      StepAudits(w, events[0]);
      AuditGrows(Step(w, events[0]).0, events[1..]);
    }
  }
}
