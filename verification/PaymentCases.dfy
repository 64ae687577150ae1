/** Payment reconciliation cases: an administrator claims a case in one transaction, asks the payment provider
    outside any transaction, and hands the answer in with the claim in another.  Row locks make each transaction
    one step; any number of them interleave, and the clock moves between them. */
module PaymentCases {
  import opened Options

  datatype Status = Open | Resolved

  datatype Case = Case(
    status: Status,
    gatewayId: string,
    amount: nat,
    token: Option<string>,
    lease: Option<nat>,
    providerStatus: string,
    lastError: string,
    lastChecked: Option<nat>)

  datatype AuditKind = Started | Failed | Checked | Noted | ResolvedByAdmin
  datatype Audit = Audit(kind: AuditKind, caseId: nat, text: string)

  /** The tables, the clock, and four histories that no code reads: which claim was issued for which case,
      which claims were consumed, which rechecks lost their claim unanswered, and which cases a refund settled
      (and whether a claim was outstanding then). */
  datatype World = World(
    cases: map<nat, Case>,
    audit: seq<Audit>,
    now: nat,
    issued: map<string, nat>,
    spent: seq<string>,
    dropped: seq<nat>,
    settled: map<nat, bool>)

  /** What payment.ApplyGatewayStatusTx came to. */
  datatype Verdict = Accepted | Refused | Broken

  /** The provider's answer: `gross` is n when the text reads "n.00". */
  datatype Reply = Reply(gross: Option<nat>, status: string, verdict: Verdict)

  datatype Event =
    | CaseReported(id: nat, gatewayId: string, amount: nat, provider: string)
    | Start(id: nat, claim: string, limited: bool)
    | ProviderFailed(id: nat, claim: string, reason: string)
    | ProviderReplied(id: nat, claim: string, gatewayId: string, payment: Option<nat>, reply: Reply)
    | Resolve(id: nat, note: string)
    | AddNote(id: nat, note: string)
    | RefundSettled(id: nat)
    | Tick(elapsed: nat)

  datatype Result = Ok | NotFound | Conflict | RateLimited | ProviderFailure | Unavailable

  const LeaseTime: nat := 30

  predicate Leased(c: Case, now: nat) {
    c.lease.Some? && c.lease.value > now
  }

  function Released(c: Case, now: nat, error: string): Case {
    c.(token := None, lease := None, lastChecked := Some(now), lastError := error)
  }

  predicate Holds(w: World, id: nat, claim: string) {
    id in w.cases && w.cases[id].status == Open && w.cases[id].token == Some(claim)
  }

  const AmountDiffers := "Nominal provider berbeda dari nominal pesanan."
  const StatusRefused := "Status provider tidak lolos validasi pembayaran."

  function Step(w: World, e: Event): (World, Result) {
    match e
    case CaseReported(id, gatewayId, amount, provider) =>
      if id in w.cases then (w.(cases := w.cases[id := w.cases[id].(providerStatus := provider)]), Ok)
      else (w.(cases := w.cases[id := Case(Open, gatewayId, amount, None, None, provider, "", None)]), Ok)
    case Start(id, claim, limited) => StartStep(w, id, claim, limited)
    case ProviderFailed(id, claim, reason) =>
      if id !in w.cases then (w, NotFound)
      else if !Holds(w, id, claim) then (w, Conflict)
      else (Consume(w, id, claim, Released(w.cases[id], w.now, reason), Audit(Failed, id, reason)), Ok)
    case ProviderReplied(id, claim, gatewayId, payment, reply) => ReplyStep(w, id, claim, gatewayId, payment, reply)
    case Resolve(id, note) =>
      if id !in w.cases then (w, NotFound)
      else if w.cases[id].status != Open || Leased(w.cases[id], w.now) then (w, Conflict)
      else
        (w.(cases := w.cases[id := w.cases[id].(status := Resolved, token := None, lease := None)],
            audit := w.audit + [Audit(ResolvedByAdmin, id, note)],
            dropped := if w.cases[id].token.Some? then w.dropped + [id] else w.dropped), Ok)
    case AddNote(id, note) =>
      if id !in w.cases then (w, NotFound) else (w.(audit := w.audit + [Audit(Noted, id, note)]), Ok)
    case RefundSettled(id) =>
      if id !in w.cases || w.cases[id].status != Open then (w, Ok)
      else (w.(cases := w.cases[id := w.cases[id].(status := Resolved)],
               settled := w.settled[id := w.cases[id].token.Some?]), Ok)
    case Tick(elapsed) => (w.(now := w.now + elapsed), Ok)
  }

  function StartStep(w: World, id: nat, claim: string, limited: bool): (World, Result) {
    if id !in w.cases then (w, NotFound)
    else if w.cases[id].status != Open || Leased(w.cases[id], w.now) then (w, Conflict)
    else if limited then (w, RateLimited)
    else
      (w.(cases := w.cases[id := w.cases[id].(token := Some(claim), lease := Some(w.now + LeaseTime))],
          audit := w.audit + [Audit(Started, id, "STARTED")],
          issued := w.issued[claim := id],
          dropped := if w.cases[id].token.Some? then w.dropped + [id] else w.dropped), Ok)
  }

  function Consume(w: World, id: nat, claim: string, after: Case, entry: Audit): World {
    w.(cases := w.cases[id := after], audit := w.audit + [entry], spent := w.spent + [claim])
  }

  function ReplyStep(w: World, id: nat, claim: string, gatewayId: string, payment: Option<nat>, reply: Reply): (World, Result) {
    if payment.None? then (w, Unavailable)
    else if id !in w.cases then (w, NotFound)
    else if w.cases[id].gatewayId != gatewayId || !Holds(w, id, claim) then (w, Conflict)
    else if payment.value != w.cases[id].amount || reply.gross != payment then
      (Consume(w, id, claim, Released(w.cases[id], w.now, AmountDiffers), Audit(Failed, id, AmountDiffers)), ProviderFailure)
    else
      match reply.verdict
      case Broken => (w, Unavailable)
      case Refused =>
        (Consume(w, id, claim, Released(w.cases[id], w.now, StatusRefused), Audit(Failed, id, StatusRefused)), ProviderFailure)
      case Accepted =>
        (Consume(w, id, claim, Released(w.cases[id], w.now, "").(providerStatus := reply.status), Audit(Checked, id, reply.status)), Ok)
  }

  function Run(w: World, events: seq<Event>): World
    decreases |events|
  {
    if events == [] then w else Run(Step(w, events[0]).0, events[1..])
  }

  /** Random claims are fresh: every recheck in the run brings a claim that was not issued before. */
  predicate FreshClaims(w: World, events: seq<Event>)
    decreases |events|
  {
    events == [] || (Fresh(w, events[0]) && FreshClaims(Step(w, events[0]).0, events[1..]))
  }

  predicate Fresh(w: World, e: Event) {
    e.Start? ==> e.claim !in w.issued
  }

  function Tally(audit: seq<Audit>, kind: AuditKind, id: nat): nat {
    if audit == [] then 0
    else Tally(audit[..|audit| - 1], kind, id) + (if audit[|audit| - 1].kind == kind && audit[|audit| - 1].caseId == id then 1 else 0)
  }

  function Times(ids: seq<nat>, id: nat): nat {
    multiset(ids)[id]
  }

  lemma {:induction false} TallyAppend(audit: seq<Audit>, entry: Audit, kind: AuditKind, id: nat)
    ensures Tally(audit + [entry], kind, id) == Tally(audit, kind, id) + (if entry.kind == kind && entry.caseId == id then 1 else 0)
  {
    assert (audit + [entry])[..|audit|] == audit;
  }

  function Answers(audit: seq<Audit>, id: nat): nat {
    Tally(audit, Failed, id) + Tally(audit, Checked, id)
  }

  // ---------------------------------------------------------------- what every step keeps

  /** Claims: stored ones were issued for that case and not consumed, and none is consumed twice. */
  predicate ClaimsInOrder(w: World) {
    && (forall id :: id in w.cases ==> (w.cases[id].token.Some? <==> w.cases[id].lease.Some?))
    && (forall id :: id in w.cases && w.cases[id].token.Some? ==>
          w.cases[id].token.value in w.issued && w.issued[w.cases[id].token.value] == id && w.cases[id].token.value !in w.spent)
    && (forall i :: 0 <= i < |w.spent| ==> w.spent[i] in w.issued)
    && (forall i, j :: 0 <= i < j < |w.spent| ==> w.spent[i] != w.spent[j])
  }

  /** The audit of one case: each started recheck is answered, lost, or still open; the case was resolved by an
      administrator exactly when it is RESOLVED and no refund settled it; and it still holds a claim as RESOLVED
      exactly when the refund that settled it found one. */
  predicate CaseInOrder(w: World, id: nat) {
    var held := if id in w.cases && w.cases[id].token.Some? then 1 else 0;
    && Tally(w.audit, Started, id) == Answers(w.audit, id) + Times(w.dropped, id) + held
    && Tally(w.audit, ResolvedByAdmin, id) == (if id in w.cases && w.cases[id].status == Resolved && id !in w.settled then 1 else 0)
    && (id in w.settled ==> id in w.cases && w.cases[id].status == Resolved)
    && (id in w.cases && w.cases[id].status == Resolved ==>
          (w.cases[id].token.Some? <==> id in w.settled && w.settled[id]))
  }

  ghost predicate InOrder(w: World) {
    ClaimsInOrder(w) && forall id: nat :: CaseInOrder(w, id)
  }

  lemma ClaimsAfterConsume(w: World, id: nat, claim: string, after: Case, entry: Audit)
    requires ClaimsInOrder(w) && Holds(w, id, claim) && after.token.None? && after.lease.None?
    ensures ClaimsInOrder(Consume(w, id, claim, after, entry))
  {
    var next := Consume(w, id, claim, after, entry);
    forall other | other in next.cases && next.cases[other].token.Some?
      ensures next.cases[other].token.value !in next.spent
    {
      assert next.cases[other] == w.cases[other];
      assert w.issued[claim] == id && w.issued[next.cases[other].token.value] == other;
    }
  }

  lemma ClaimsAfterStart(w: World, id: nat, claim: string, limited: bool)
    requires ClaimsInOrder(w) && claim !in w.issued
    ensures ClaimsInOrder(StartStep(w, id, claim, limited).0)
  {
  }

  /** An update that keeps or clears the claim of one case and issues and consumes none. */
  lemma ClaimsAfterUpdate(w: World, next: World, id: nat, after: Case)
    requires ClaimsInOrder(w) && next.issued == w.issued && next.spent == w.spent
    requires next.cases == w.cases[id := after]
    requires (after.token.None? && after.lease.None?)
          || (id in w.cases && after.token == w.cases[id].token && after.lease == w.cases[id].lease)
    ensures ClaimsInOrder(next)
  {
  }

  lemma StepKeepsClaims(w: World, e: Event)
    requires ClaimsInOrder(w) && Fresh(w, e)
    ensures ClaimsInOrder(Step(w, e).0)
  {
    var next := Step(w, e).0;
    match e
    case CaseReported(id, _, _, _) => ClaimsAfterUpdate(w, next, id, next.cases[id]);
    case Start(id, claim, limited) => ClaimsAfterStart(w, id, claim, limited);
    case ProviderFailed(id, claim, reason) =>
      if Holds(w, id, claim) { ClaimsAfterConsume(w, id, claim, next.cases[id], Audit(Failed, id, reason)); }
    case ProviderReplied(id, claim, _, _, _) =>
      if next != w { ClaimsAfterConsume(w, id, claim, next.cases[id], next.audit[|w.audit|]); }
    case Resolve(id, _) =>
      if next != w { ClaimsAfterUpdate(w, next, id, next.cases[id]); }
    case AddNote(_, _) =>
    case RefundSettled(id) =>
      if next != w { ClaimsAfterUpdate(w, next, id, next.cases[id]); }
    case Tick(_) =>
  }

  lemma {:induction false} TalliesAppend(audit: seq<Audit>, entry: Audit, id: nat)
    ensures Tally(audit + [entry], Started, id) == Tally(audit, Started, id) + (if entry.kind == Started && entry.caseId == id then 1 else 0)
    ensures Tally(audit + [entry], ResolvedByAdmin, id)
         == Tally(audit, ResolvedByAdmin, id) + (if entry.kind == ResolvedByAdmin && entry.caseId == id then 1 else 0)
    ensures Answers(audit + [entry], id)
         == Answers(audit, id) + (if (entry.kind == Failed || entry.kind == Checked) && entry.caseId == id then 1 else 0)
  {
    TallyAppend(audit, entry, Started, id);
    TallyAppend(audit, entry, ResolvedByAdmin, id);
    TallyAppend(audit, entry, Failed, id);
    TallyAppend(audit, entry, Checked, id);
  }

  lemma CaseAfterConsume(w: World, at: nat, claim: string, after: Case, entry: Audit, id: nat)
    requires CaseInOrder(w, id) && Holds(w, at, claim)
    requires after.token.None? && after.status == Open && (entry.kind == Failed || entry.kind == Checked) && entry.caseId == at
    ensures CaseInOrder(Consume(w, at, claim, after, entry), id)
  {
    TalliesAppend(w.audit, entry, id);
  }

  lemma CaseAfterStart(w: World, at: nat, claim: string, limited: bool, id: nat)
    requires CaseInOrder(w, id)
    ensures CaseInOrder(StartStep(w, at, claim, limited).0, id)
  {
    TalliesAppend(w.audit, Audit(Started, at, "STARTED"), id);
    assert multiset(w.dropped + [at]) == multiset(w.dropped) + multiset{at};
  }

  lemma CaseAfterResolve(w: World, at: nat, note: string, id: nat)
    requires CaseInOrder(w, id)
    ensures CaseInOrder(Step(w, Resolve(at, note)).0, id)
  {
    TalliesAppend(w.audit, Audit(ResolvedByAdmin, at, note), id);
    assert multiset(w.dropped + [at]) == multiset(w.dropped) + multiset{at};
  }

  lemma CaseAfterNote(w: World, at: nat, note: string, id: nat)
    requires CaseInOrder(w, id)
    ensures CaseInOrder(Step(w, AddNote(at, note)).0, id)
  {
    TalliesAppend(w.audit, Audit(Noted, at, note), id);
  }

  lemma CaseAfterUpdate(w: World, e: Event, id: nat)
    requires CaseInOrder(w, id) && (e.CaseReported? || e.RefundSettled? || e.Tick?)
    ensures CaseInOrder(Step(w, e).0, id)
  {
  }

  lemma StepKeepsCase(w: World, e: Event, id: nat)
    requires CaseInOrder(w, id)
    ensures CaseInOrder(Step(w, e).0, id)
  {
    var next := Step(w, e).0;
    match e
    case Start(at, claim, limited) => CaseAfterStart(w, at, claim, limited, id);
    case ProviderFailed(at, claim, reason) =>
      if Holds(w, at, claim) { CaseAfterConsume(w, at, claim, next.cases[at], Audit(Failed, at, reason), id); }
    case ProviderReplied(at, claim, _, _, _) =>
      if next != w {
        AnswerNeedsItsClaim(w, e);
        CaseAfterConsume(w, at, claim, next.cases[at], next.audit[|w.audit|], id);
      }
    case Resolve(at, note) => CaseAfterResolve(w, at, note, id);
    case AddNote(at, note) => CaseAfterNote(w, at, note, id);
    case CaseReported(_, _, _, _) => CaseAfterUpdate(w, e, id);
    case RefundSettled(_) => CaseAfterUpdate(w, e, id);
    case Tick(_) => CaseAfterUpdate(w, e, id);
  }

  lemma StepKeepsOrder(w: World, e: Event)
    requires InOrder(w) && Fresh(w, e)
    ensures InOrder(Step(w, e).0)
  {
    StepKeepsClaims(w, e);
    forall id: nat ensures CaseInOrder(Step(w, e).0, id) { StepKeepsCase(w, e, id); }
  }

  /** Over every interleaving the claims and the audit stay in order. */
  lemma {:induction false} RunKeepsOrder(w: World, events: seq<Event>)
    requires InOrder(w) && FreshClaims(w, events)
    ensures InOrder(Run(w, events))
    decreases |events|
  {
    if events != [] {
      StepKeepsOrder(w, events[0]);
      RunKeepsOrder(Step(w, events[0]).0, events[1..]);
    }
  }

  /** Before the first case is reported. */
  const Empty := World(map[], [], 0, map[], [], [], map[])

  /** Over every run from the empty tables: a case has no more answered rechecks than started ones, and at most one of
      those is still open; it is audited as resolved at most once and only while RESOLVED, exactly once unless a
      refund settled it; and as RESOLVED it holds a claim only if a refund settled it. */
  lemma {:induction false} AuditAddsUp(events: seq<Event>, id: nat)
    requires FreshClaims(Empty, events)
    ensures var w := Run(Empty, events);
      && Answers(w.audit, id) <= Tally(w.audit, Started, id)
      && Tally(w.audit, ResolvedByAdmin, id) <= 1
      && (Tally(w.audit, ResolvedByAdmin, id) == 1 <==> id in w.cases && w.cases[id].status == Resolved && id !in w.settled)
      && (id in w.cases && w.cases[id].status == Resolved && id !in w.settled ==> w.cases[id].token.None? && w.cases[id].lease.None?)
  {
    RunKeepsOrder(Empty, events);
    assert CaseInOrder(Run(Empty, events), id);
  }

  // ---------------------------------------------------------------- claims over whole runs

  /** An answer has an effect only while its claim is the stored token of an open case; then it frees that case,
      leaves it open, consumes the claim, adds one audit entry, and touches no other case. */
  lemma AnswerNeedsItsClaim(w: World, e: Event)
    requires e.ProviderFailed? || e.ProviderReplied?
    ensures Step(w, e).0 != w ==>
              && Holds(w, e.id, e.claim)
              && Step(w, e).0.cases.Keys == w.cases.Keys
              && (forall other :: other in w.cases && other != e.id ==> Step(w, e).0.cases[other] == w.cases[other])
              && Step(w, e).0.cases[e.id].token.None? && Step(w, e).0.cases[e.id].status == Open
              && Step(w, e).0.spent == w.spent + [e.claim]
              && |Step(w, e).0.audit| == |w.audit| + 1
    ensures e.ProviderFailed? ==> (Step(w, e).0 != w <==> Holds(w, e.id, e.claim))
    ensures e.ProviderReplied? ==>
              (Step(w, e).0 != w <==>
               && Holds(w, e.id, e.claim) && w.cases[e.id].gatewayId == e.gatewayId && e.payment.Some?
               && (e.payment.value == w.cases[e.id].amount && e.reply.gross == e.payment ==> e.reply.verdict != Broken))
  {
    var next := Step(w, e).0;
    if Holds(w, e.id, e.claim) && next != w {
      assert next.spent == w.spent + [e.claim];
    }
    assert |w.spent + [e.claim]| != |w.spent|;
  }

  predicate Dead(w: World, claim: string) {
    claim in w.issued && forall id :: id in w.cases ==> !Holds(w, id, claim)
  }

  lemma StepKeepsDead(w: World, e: Event, claim: string)
    requires Fresh(w, e) && Dead(w, claim)
    ensures Dead(Step(w, e).0, claim)
  {
    var next := Step(w, e).0;
    forall id | id in next.cases ensures !Holds(next, id, claim) {
      assert id in w.cases ==> !Holds(w, id, claim);
    }
  }

  /** A claim that was issued and is no longer stored on an open case has no effect ever after: it is never stored
      again, and every answer that carries it leaves the world as it is. */
  lemma {:induction false} DeadClaimStaysDead(w: World, events: seq<Event>, claim: string, k: nat)
    requires FreshClaims(w, events) && Dead(w, claim)
    requires k < |events| && (events[k].ProviderFailed? || events[k].ProviderReplied?) && events[k].claim == claim
    ensures Dead(Run(w, events[..k]), claim)
    ensures Run(w, events[..k + 1]) == Run(w, events[..k])
    decreases k
  {
    if k == 0 {
      AnswerNeedsItsClaim(w, events[0]);
      assert events[..1][1..] == [] && Step(w, events[0]).0 == w;
    } else {
      var next := Step(w, events[0]).0;
      StepKeepsDead(w, events[0], claim);
      DeadClaimStaysDead(next, events[1..], claim, k - 1);
      assert events[..k][1..] == events[1..][..k - 1] && events[..k + 1][1..] == events[1..][..k];
    }
  }

  /** Once an answer used its claim, every later answer with the same claim changes nothing. */
  lemma {:induction false} ClaimIsConsumedOnce(w: World, e: Event, rest: seq<Event>, k: nat)
    requires InOrder(w) && FreshClaims(w, [e] + rest) && k < |rest|
    requires (e.ProviderFailed? || e.ProviderReplied?) && Step(w, e).0 != w
    requires (rest[k].ProviderFailed? || rest[k].ProviderReplied?) && rest[k].claim == e.claim
    ensures Run(Step(w, e).0, rest[..k + 1]) == Run(Step(w, e).0, rest[..k])
  {
    var next := Step(w, e).0;
    assert ([e] + rest)[1..] == rest;
    AnswerNeedsItsClaim(w, e);
    StepKeepsClaims(w, e);
    assert e.claim == next.spent[|w.spent|];
    assert Dead(next, e.claim);
    DeadClaimStaysDead(next, rest, e.claim, k);
  }

  /** A recheck that starts after the lease ran out overtakes the claim: the answer to the earlier one, whenever it
      comes, changes nothing. */
  lemma {:induction false} OvertakenClaimIsDead(w: World, e: Event, claim: string, rest: seq<Event>, k: nat)
    requires InOrder(w) && FreshClaims(w, [e] + rest) && k < |rest|
    requires e.Start? || e.Resolve?
    requires Step(w, e).1 == Ok && Holds(w, e.id, claim)
    requires (rest[k].ProviderFailed? || rest[k].ProviderReplied?) && rest[k].claim == claim
    ensures Run(Step(w, e).0, rest[..k + 1]) == Run(Step(w, e).0, rest[..k])
  {
    var next := Step(w, e).0;
    assert ([e] + rest)[1..] == rest;
    assert w.issued[claim] == e.id;
    forall id | id in next.cases ensures !Holds(next, id, claim) {
      if id != e.id { assert next.cases[id] == w.cases[id]; }
    }
    DeadClaimStaysDead(next, rest, claim, k);
  }

  predicate QuietRefunds(events: seq<Event>, id: nat) {
    forall k :: 0 <= k < |events| ==> events[k] != RefundSettled(id)
  }

  lemma StepUnderLease(w: World, e: Event, id: nat, claim: string)
    requires ClaimsInOrder(w) && Fresh(w, e) && e != RefundSettled(id)
    requires Holds(w, id, claim) && w.cases[id].lease.value > w.now
    ensures var next := Step(w, e).0;
      (Holds(next, id, claim) && next.cases[id].lease == w.cases[id].lease) || next.spent == w.spent + [claim]
  {
  }

  /** Until its lease runs out, a claim can only be lost to its own answer: no other recheck, no resolve and no
      other answer takes it, whatever is interleaved (settlement of a refund aside). */
  lemma {:induction false} LeaseProtectsClaim(w: World, events: seq<Event>, id: nat, claim: string)
    requires ClaimsInOrder(w) && FreshClaims(w, events) && QuietRefunds(events, id)
    requires Holds(w, id, claim) && w.cases[id].lease.value > Run(w, events).now
    ensures Holds(Run(w, events), id, claim) || claim in Run(w, events).spent
    decreases |events|
  {
    ClockAndHistoryGrow(w, events);
    if events != [] {
      var e, next := events[0], Step(w, events[0]).0;
      ClockAndHistoryGrow(next, events[1..]);
      StepKeepsClaims(w, e);
      StepUnderLease(w, e, id, claim);
      if Holds(next, id, claim) && next.cases[id].lease == w.cases[id].lease {
        LeaseProtectsClaim(next, events[1..], id, claim);
      } else {
        assert claim == next.spent[|w.spent|];
        assert claim in Run(next, events[1..]).spent;
      }
    }
  }

  lemma {:induction false} ClockAndHistoryGrow(w: World, events: seq<Event>)
    ensures w.now <= Run(w, events).now && w.spent <= Run(w, events).spent
    decreases |events|
  {
    if events != [] {
      var next := Step(w, events[0]).0;
      assert w.now <= next.now && w.spent <= next.spent;
      ClockAndHistoryGrow(next, events[1..]);
    }
  }

  predicate SameButProvider(before: Case, after: Case) {
    after == before.(providerStatus := after.providerStatus)
  }

  /** RESOLVED is final: afterwards nothing about the case changes but the status that the provider last reported. */
  lemma {:induction false} ResolvedIsFinal(w: World, events: seq<Event>, id: nat)
    requires id in w.cases && w.cases[id].status == Resolved
    ensures id in Run(w, events).cases && SameButProvider(w.cases[id], Run(w, events).cases[id])
    decreases |events|
  {
    if events != [] {
      var next := Step(w, events[0]).0;
      assert id in next.cases && SameButProvider(w.cases[id], next.cases[id]);
      ResolvedIsFinal(next, events[1..], id);
    }
  }

  /** The settlement of a refund closes a case without clearing the columns that ResolveCase clears: the step that
      closes a case leaves it with no claim exactly when an administrator took it or no claim was stored. */
  lemma ClosingStepClearsClaim(w: World, e: Event, id: nat)
    requires id in w.cases && w.cases[id].status == Open && Step(w, e).0.cases[id].status == Resolved
    ensures Step(w, e).0.cases[id].token.None? <==> e.Resolve? || w.cases[id].token.None?
    ensures |Step(w, e).0.audit| == |w.audit| + 1 <==> e.Resolve?
  {
    assert |w.audit + [Audit(ResolvedByAdmin, id, "")]| == |w.audit| + 1;
  }

  /** The smallest run that ends with a RESOLVED case holding a claim and no entry for it in the audit. */
  lemma SettlementLeavesClaim(id: nat)
    ensures var events := [CaseReported(id, "g", 1, "settlement"), Start(id, "c", false), RefundSettled(id)];
      var w := Run(Empty, events);
      FreshClaims(Empty, events) && id in w.cases && w.cases[id].status == Resolved && w.cases[id].token == Some("c")
      && w.audit == [Audit(Started, id, "STARTED")]
  {
    var events := [CaseReported(id, "g", 1, "settlement"), Start(id, "c", false), RefundSettled(id)];
    var w1 := Step(Empty, events[0]).0;
    var w2 := Step(w1, events[1]).0;
    assert events[1..] == [events[1], events[2]] && events[1..][1..] == [events[2]] && events[1..][1..][1..] == [];
    assert Run(w2, [events[2]]) == Step(w2, events[2]).0;
    assert FreshClaims(w2, [events[2]]);
    assert FreshClaims(w1, events[1..]);
  }

  // ---------------------------------------------------------------- the capabilities shown to the administrator

  /** CaseDetail: checkInProgress is COALESCE(check_lease_until > now, FALSE). */
  predicate CanResolve(c: Case, now: nat) {
    c.status == Open && !Leased(c, now)
  }

  predicate CanRecheck(c: Case, now: nat, hasServerKey: bool) {
    c.status == Open && !Leased(c, now) && hasServerKey
  }

  /** What the case page offers is exactly what the actions grant, and an action that was granted has its effect. */
  lemma CapabilitiesAreExact(w: World, id: nat, claim: string, note: string)
    requires id in w.cases
    ensures CanResolve(w.cases[id], w.now) <==> Step(w, Resolve(id, note)).1 == Ok
    ensures CanRecheck(w.cases[id], w.now, true) <==> Step(w, Start(id, claim, false)).1 == Ok
    ensures CanRecheck(w.cases[id], w.now, true) ==>
              Holds(Step(w, Start(id, claim, false)).0, id, claim) && !CanResolve(Step(w, Start(id, claim, false)).0.cases[id], w.now)
    ensures CanResolve(w.cases[id], w.now) ==> Step(w, Resolve(id, note)).0.cases[id].status == Resolved
  {
  }

  // ---------------------------------------------------------------- the service

  class CaseDesk {
    var cases: map<nat, Case>
    var audit: seq<Audit>
    var now: nat
    ghost var issued: map<string, nat>
    ghost var spent: seq<string>
    ghost var dropped: seq<nat>
    ghost var settled: map<nat, bool>

    ghost function State(): World
      reads this
    {
      World(cases, audit, now, issued, spent, dropped, settled)
    }

    constructor ()
      ensures State() == Empty
    {
      cases, audit, now := map[], [], 0;
      issued, spent, dropped, settled := map[], [], [], map[];
    }

    method LockCase(id: nat, resolving: bool) returns (r: Result)
      ensures r == NotFound <==> id !in cases
      ensures r == Conflict <==> id in cases && resolving && !CanResolve(cases[id], now)
      ensures r in {Ok, NotFound, Conflict}
    {
      if id !in cases { return NotFound; }
      var c := cases[id];
      if resolving && (c.status != Open || (c.lease.Some? && c.lease.value > now)) { return Conflict; }
      return Ok;
    }

    method StartRecheck(id: nat, claim: string, limited: bool) returns (r: Result)
      modifies this
      ensures (State(), r) == Step(old(State()), Start(id, claim, limited))
    {
      if id !in cases { return NotFound; }
      var c := cases[id];
      if c.status != Open || (c.lease.Some? && c.lease.value > now) { return Conflict; }
      if limited { return RateLimited; }
      dropped := if c.token.Some? then dropped + [id] else dropped;
      issued := issued[claim := id];
      cases := cases[id := c.(token := Some(claim), lease := Some(now + LeaseTime))];
      audit := audit + [Audit(Started, id, "STARTED")];
      return Ok;
    }

    method FinishProviderFailure(id: nat, claim: string, reason: string) returns (r: Result)
      modifies this
      ensures (State(), r) == Step(old(State()), ProviderFailed(id, claim, reason))
    {
      if id !in cases { return NotFound; }
      var c := cases[id];
      if c.status != Open || c.token != Some(claim) { return Conflict; }
      Release(id, claim, c.providerStatus, reason, Audit(Failed, id, reason));
      return Ok;
    }

    /** The UPDATE that ends a recheck, whatever its outcome, and its audit entry. */
    method Release(id: nat, claim: string, provider: string, error: string, entry: Audit)
      requires id in cases
      modifies this
      ensures State() == Consume(old(State()), id, claim, Released(old(cases[id]), old(now), error).(providerStatus := provider), entry)
    {
      spent := spent + [claim];
      cases := cases[id := cases[id].(providerStatus := provider, lastChecked := Some(now), lastError := error, token := None, lease := None)];
      audit := audit + [entry];
    }

    method RecordProviderMismatch(id: nat, claim: string, reason: string) returns (r: Result)
      requires id in cases
      modifies this
      ensures State() == Consume(old(State()), id, claim, Released(old(cases[id]), old(now), reason), Audit(Failed, id, reason))
      ensures r == ProviderFailure
    {
      Release(id, claim, cases[id].providerStatus, reason, Audit(Failed, id, reason));
      return ProviderFailure;
    }

    method ApplyProviderResult(id: nat, claim: string, gatewayId: string, payment: Option<nat>, reply: Reply) returns (r: Result)
      modifies this
      ensures (State(), r) == Step(old(State()), ProviderReplied(id, claim, gatewayId, payment, reply))
    {
      if payment.None? { return Unavailable; }
      if id !in cases { return NotFound; }
      var c := cases[id];
      if c.status != Open || c.gatewayId != gatewayId || c.token != Some(claim) { return Conflict; }
      if payment.value != c.amount || reply.gross != payment {
        r := RecordProviderMismatch(id, claim, AmountDiffers);
        return;
      }
      match reply.verdict
      case Broken => return Unavailable;
      case Refused => r := RecordProviderMismatch(id, claim, StatusRefused);
      case Accepted =>
        Release(id, claim, reply.status, "", Audit(Checked, id, reply.status));
        return Ok;
    }

    method AddCaseNote(id: nat, note: string) returns (r: Result)
      modifies this
      ensures (State(), r) == Step(old(State()), AddNote(id, note))
    {
      r := LockCase(id, false);
      if r == Ok { audit := audit + [Audit(Noted, id, note)]; }
    }

    method ResolveCase(id: nat, note: string) returns (r: Result)
      modifies this
      ensures (State(), r) == Step(old(State()), Resolve(id, note))
    {
      r := LockCase(id, true);
      if r == Ok {
        dropped := if cases[id].token.Some? then dropped + [id] else dropped;
        if cases[id].status == Open {
          cases := cases[id := cases[id].(status := Resolved, token := None, lease := None)];
        }
        audit := audit + [Audit(ResolvedByAdmin, id, note)];
      }
    }

    /** The other writers of the table, and the clock. */
    method Elsewhere(e: Event)
      requires e.CaseReported? || e.RefundSettled? || e.Tick?
      modifies this
      ensures State() == Step(old(State()), e).0
    {
      match e
      case CaseReported(id, gatewayId, amount, provider) =>
        cases := cases[id := if id in cases then cases[id].(providerStatus := provider)
                             else Case(Open, gatewayId, amount, None, None, provider, "", None)];
      case RefundSettled(id) =>
        if id in cases && cases[id].status == Open {
          settled := settled[id := cases[id].token.Some?];
          cases := cases[id := cases[id].(status := Resolved)];
        }
      case Tick(elapsed) => now := now + elapsed;
    }

    /** Any one transaction of the interleaving. */
    method Transact(e: Event)
      modifies this
      ensures State() == Step(old(State()), e).0
    {
      var r;
      match e
      case Start(id, claim, limited) => r := StartRecheck(id, claim, limited);
      case ProviderFailed(id, claim, reason) => r := FinishProviderFailure(id, claim, reason);
      case ProviderReplied(id, claim, gatewayId, payment, reply) => r := ApplyProviderResult(id, claim, gatewayId, payment, reply);
      case Resolve(id, note) => r := ResolveCase(id, note);
      case AddNote(id, note) => r := AddCaseNote(id, note);
      case CaseReported(_, _, _, _) => Elsewhere(e);
      case RefundSettled(_) => Elsewhere(e);
      case Tick(_) => Elsewhere(e);
    }

    /** Recheck as one request sees it: its claim, whatever `others` do while the provider is asked, its answer. */
    method Recheck(id: nat, claim: string, limited: bool, others: seq<Event>, failure: Option<string>, payment: Option<nat>, reply: Reply)
        returns (r: Result)
      requires claim !in issued
      modifies this
      ensures var first := Step(old(State()), Start(id, claim, limited));
        if first.1 != Ok then State() == first.0 && r == first.1
        else
          var meanwhile := Run(first.0, others);
          if failure.Some? then
            var last := Step(meanwhile, ProviderFailed(id, claim, failure.value));
            State() == last.0 && r == if last.1 == Ok then ProviderFailure else last.1
          else
            (State(), r) == Step(meanwhile, ProviderReplied(id, claim, old(cases[id].gatewayId), payment, reply))
    {
      var gatewayId := if id in cases then cases[id].gatewayId else "";
      r := StartRecheck(id, claim, limited);
      if r != Ok { return; }
      ghost var claimed := State();
      var k := 0;
      while k < |others|
        invariant 0 <= k <= |others|
        invariant Run(State(), others[k..]) == Run(claimed, others)
      {
        assert others[k..][0] == others[k] && others[k..][1..] == others[k + 1..];
        Transact(others[k]);
        k := k + 1;
      }
      if failure.Some? {
        r := FinishProviderFailure(id, claim, failure.value);
        if r == Ok { r := ProviderFailure; }
      } else {
        r := ApplyProviderResult(id, claim, gatewayId, payment, reply);
      }
    }
  }
}
