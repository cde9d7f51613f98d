/** The Payout Processor function (`functions/PayoutProcessor`): on a `claim.approved`
    event it records a payout, pays it, and on success marks the payout completed, the
    claim paid, and announces the payout. */
module PayoutProcessor {
  import opened Wrappers
  import opened Text
  import opened Json
  import opened Clock
  import opened Models
  import opened EventGrid
  import opened Store

  /** The transaction id `process_payment` makes up: "TXN-", the time stamp, "-", and the
      last four characters of the claim id. */
  function TransactionId(claimId: string, now: Instant): (t: string)
    ensures StartsWith(t, "TXN-" + Stamp(now) + "-") && StartsWith(t, "TXN-")
    ensures EndsWith(t, Last(claimId, 4))
    ensures |t| == 5 + |Stamp(now)| + (if |claimId| < 4 then |claimId| else 4)
  {
    var t := "TXN-" + Stamp(now) + "-" + Last(claimId, 4);
    StartsWithPrefix(t, "TXN-", Stamp(now) + "-");
    t
  }

  /** The payout record the handler creates before paying: processing, paid by ACH. */
  function NewPayout(claimId: string, policyId: string, amount: real, now: Instant): (p: Payout)
    ensures p.payoutId == CreatePayoutId(claimId, now)
    ensures p.claimId == claimId && p.policyId == policyId && p.amount == amount
    ensures p.status == Processing && p.initiatedAt == now && p.completedAt.None? && p.transactionId.None?
  {
    Payout(CreatePayoutId(claimId, now), claimId, policyId, amount, Processing, now, None, None, "ACH")
  }

  /** How one event ends. */
  datatype Outcome =
    | MissingFields
    | NoPaymentNeeded
    | ClaimNotFound
    | PolicyNotFound
    | PaidOut(payout: Payout)
    | PaymentFailed(payout: Payout)

  /** The decision `main(event)` reaches for the event's claim id, policy id and amount
      (`None` when the key is absent), the warehouse tables, and the payment system's answer
      `paid` (the simulated `process_payment` always answers yes). A falsy field, including
      an amount of zero, stops the handler before the amount test. */
  function Decide(claimId: Option<string>, policyId: Option<string>, amount: Option<real>,
                  claims: seq<Claim>, policies: seq<Policy>, now: Instant, paid: bool): (o: Outcome)
    ensures o.PaidOut? || o.PaymentFailed? ==>
      claimId.Some? && policyId.Some? && amount.Some? && amount.value > 0.0
      && FindClaim(claims, claimId.value).Some? && FindPolicy(policies, policyId.value).Some?
  {
    if claimId.None? || claimId.value == "" || policyId.None? || policyId.value == ""
       || amount.None? || amount.value == 0.0 then MissingFields
    else if amount.value <= 0.0 then NoPaymentNeeded
    else if FindClaim(claims, claimId.value).None? then ClaimNotFound
    else if FindPolicy(policies, policyId.value).None? then PolicyNotFound
    else
      var p := NewPayout(claimId.value, policyId.value, amount.value, now);
      if paid then PaidOut(p.(status := Completed, completedAt := Some(now),
                           transactionId := Some(TransactionId(claimId.value, now))))
      else PaymentFailed(p)
  }

  /** A payment is attempted exactly when all three fields are truthy, the amount is
      positive and both the claim and the policy exist; it then ends paid exactly when the
      payment system says so. */
  lemma DecideCases(claimId: Option<string>, policyId: Option<string>, amount: Option<real>,
                    claims: seq<Claim>, policies: seq<Policy>, now: Instant, paid: bool)
    ensures var o := Decide(claimId, policyId, amount, claims, policies, now, paid);
      ((o.PaidOut? || o.PaymentFailed?) <==>
         claimId.Some? && claimId.value != "" && policyId.Some? && policyId.value != ""
         && amount.Some? && amount.value > 0.0
         && FindClaim(claims, claimId.value).Some? && FindPolicy(policies, policyId.value).Some?)
      && (o.PaidOut? ==> paid) && (o.PaymentFailed? ==> !paid)
      && ((amount.Some? && amount.value < 0.0 && claimId.Some? && claimId.value != ""
           && policyId.Some? && policyId.value != "") ==> o == NoPaymentNeeded)
  {
  }

  /** A completed payout pays the event's amount for the event's claim and policy, and its
      transaction id names the time and the end of the claim id. */
  lemma PaidPayoutMatchesEvent(claimId: Option<string>, policyId: Option<string>, amount: Option<real>,
                               claims: seq<Claim>, policies: seq<Policy>, now: Instant)
    requires Decide(claimId, policyId, amount, claims, policies, now, true).PaidOut?
    ensures var p := Decide(claimId, policyId, amount, claims, policies, now, true).payout;
      p.claimId == claimId.value && p.policyId == policyId.value && p.amount == amount.value
      && p.amount > 0.0 && p.status == Completed && p.completedAt == Some(now)
      && p.payoutId == CreatePayoutId(claimId.value, now)
      && p.transactionId.Some? && StartsWith(p.transactionId.value, "TXN-")
      && EndsWith(p.transactionId.value, Last(claimId.value, 4))
  {
  }

  /** Nothing in the decision looks at the claim's status: a claim already paid is paid
      again when its approval is delivered again. */
  lemma PaidClaimIsPaidAgain(claimId: Option<string>, policyId: Option<string>, amount: Option<real>,
                             claims: seq<Claim>, policies: seq<Policy>, now: Instant, paid: bool)
    requires claimId.Some?
    ensures Decide(claimId, policyId, amount, SetClaimStatus(claims, claimId.value, Models.Paid), policies, now, paid)
         == Decide(claimId, policyId, amount, claims, policies, now, paid)
  {
    FindClaimAfterStatusChange(claims, claimId.value, Models.Paid);
  }

  /** Changing claim statuses does not change which ids can be found. */
  lemma {:induction false} FindClaimAfterStatusChange(claims: seq<Claim>, id: string, st: ClaimStatus)
    ensures FindClaim(SetClaimStatus(claims, id, st), id).Some? == FindClaim(claims, id).Some?
  {
    if claims != [] {
      FindClaimAfterStatusChange(claims[1..], id, st);
      assert SetClaimStatus(claims, id, st)[1..] == SetClaimStatus(claims[1..], id, st);
    }
  }

  /** The claim attached to the payout event: the stored claim's ids and filing time, with
      the paid status. */
  function PaidClaim(row: Claim): (c: Claim)
    ensures c.claimId == row.claimId && c.policyId == row.policyId && c.status == Models.Paid
  {
    Claim(row.claimId, row.policyId, row.outageEventId, Models.Paid, row.filedAt,
          None, None, None, None, None, None, None, None)
  }

  /** `main(event)`. The warehouse writes are assumed to succeed; `paid` is the payment
      system's answer and `accepted` the topic's. */
  method Handle(claimId: Option<string>, policyId: Option<string>, amount: Option<real>,
              policies: seq<Policy>, now: Instant, paid: bool, accepted: bool,
              store: Warehouse, grid: EventGridClient) returns (o: Outcome)
    modifies store, grid
    ensures o == Decide(claimId, policyId, amount, old(store.claims), policies, now, paid)
    ensures o.PaidOut? ==>
      var created := NewPayout(claimId.value, policyId.value, amount.value, now);
      store.payouts == UpdatePayoutRows(old(store.payouts) + [StoredPayout(created)], created.payoutId,
                                        Completed, Some((now, o.payout.transactionId.value)))
      && store.claims == SetClaimStatus(old(store.claims), claimId.value, Models.Paid)
      && grid.sent == old(grid.sent)
           + Delivered(PayoutProcessedEvent(o.payout, PaidClaim(FindClaim(old(store.claims), claimId.value).value)), accepted)
    ensures o.PaymentFailed? ==>
      store.payouts == UpdatePayoutRows(old(store.payouts) + [StoredPayout(o.payout)], o.payout.payoutId, Failed, None)
      && store.claims == old(store.claims) && grid.sent == old(grid.sent)
    ensures !o.PaidOut? && !o.PaymentFailed? ==>
      store.payouts == old(store.payouts) && store.claims == old(store.claims) && grid.sent == old(grid.sent)
  {
    if claimId.None? || claimId.value == "" || policyId.None? || policyId.value == ""
       || amount.None? || amount.value == 0.0 {
      return MissingFields;
    }
    if amount.value <= 0.0 {
      return NoPaymentNeeded;
    }
    var cid, pid, amt := claimId.value, policyId.value, amount.value;
    var claimRow := FindClaim(store.claims, cid);
    if claimRow.None? {
      return ClaimNotFound;
    }
    if FindPolicy(policies, pid).None? {
      return PolicyNotFound;
    }
    o := Pay(NewPayout(cid, pid, amt, now), TransactionId(cid, now), claimRow.value, now, paid, accepted, store, grid);
  }

  /** The part of `main` after the lookups: the `created` payout row is inserted as
      processing, and then completed with transaction id `txn` or marked failed according to
      the payment system's answer. */
  method Pay(created: Payout, txn: string, claimRow: Claim, now: Instant, paid: bool, accepted: bool,
             store: Warehouse, grid: EventGridClient) returns (o: Outcome)
    modifies store, grid
    ensures paid ==>
      o == PaidOut(created.(status := Completed, completedAt := Some(now), transactionId := Some(txn)))
      && store.payouts == UpdatePayoutRows(old(store.payouts) + [StoredPayout(created)], created.payoutId,
                                           Completed, Some((now, txn)))
      && store.claims == SetClaimStatus(old(store.claims), created.claimId, Models.Paid)
      && grid.sent == old(grid.sent) + Delivered(PayoutProcessedEvent(o.payout, PaidClaim(claimRow)), accepted)
    ensures !paid ==>
      o == PaymentFailed(created)
      && store.payouts == UpdatePayoutRows(old(store.payouts) + [StoredPayout(created)], created.payoutId, Failed, None)
      && store.claims == old(store.claims) && grid.sent == old(grid.sent)
  {
    store.InsertPayout(created);
    if paid {
      var done := CompletePayment(created, txn, claimRow, now, accepted, store, grid);
      o := PaidOut(done);
    } else {
      store.UpdatePayout(created.payoutId, Failed, None);
      o := PaymentFailed(created);
    }
  }

  /** The paid branch of `main`: the payout row is completed with the transaction id, the
      claim is marked paid and the payout is announced. */
  method CompletePayment(payout: Payout, txn: string, claimRow: Claim, now: Instant, accepted: bool,
                         store: Warehouse, grid: EventGridClient) returns (done: Payout)
    modifies store, grid
    ensures done == payout.(status := Completed, completedAt := Some(now), transactionId := Some(txn))
    ensures store.payouts == UpdatePayoutRows(old(store.payouts), payout.payoutId, Completed, Some((now, txn)))
    ensures store.claims == SetClaimStatus(old(store.claims), payout.claimId, Models.Paid)
    ensures grid.sent == old(grid.sent) + Delivered(PayoutProcessedEvent(done, PaidClaim(claimRow)), accepted)
  {
    store.UpdatePayout(payout.payoutId, Completed, Some((now, txn)));
    done := payout.(status := Completed, completedAt := Some(now), transactionId := Some(txn));
    store.UpdateClaimStatus(payout.claimId, Models.Paid);
    var _ := grid.PublishEvent(PayoutProcessedEvent(done, PaidClaim(claimRow)), accepted);
  }

  /** After a completed payment the new payout row is completed, with the transaction id,
      and every row of another payout id is as it was. */
  lemma CompletedRowState(before: seq<Payout>, created: Payout, now: Instant, txn: string)
    ensures var after := UpdatePayoutRows(before + [StoredPayout(created)], created.payoutId, Completed, Some((now, txn)));
      |after| == |before| + 1
      && after[|before|].status == Completed && after[|before|].transactionId == Some(txn)
      && after[|before|].amount == created.amount && after[|before|].claimId == created.claimId
      && forall i :: 0 <= i < |before| && before[i].payoutId != created.payoutId ==> after[i] == before[i]
  {
    var rows := before + [StoredPayout(created)];
    assert rows[|before|] == StoredPayout(created);
    assert forall i :: 0 <= i < |before| ==> rows[i] == before[i];
  }
}
