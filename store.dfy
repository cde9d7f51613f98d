/** The warehouse tables the Azure Functions read and write through `FabricClient`: the
    row shapes the handlers receive, and the claims and payouts tables they insert into and
    update. Each table is the sequence of its rows; nothing enforces unique ids. */
module Store {
  import opened Wrappers
  import opened Json
  import opened Clock
  import opened Models

  /** A row of the `outage_events` table as `get_outage_event` and `get_active_outages`
      return it. */
  datatype OutageRow = OutageRow(
    eventId: string, utilityName: string, latitude: real, longitude: real, zipCode: string,
    city: Option<string>, state: Option<string>, affectedCustomers: int,
    outageStart: Instant, outageEnd: Option<Instant>, durationMinutes: Option<int>,
    status: string, cause: Option<string>, reportedCause: Option<string>,
    dataSource: string, lastUpdated: Option<Instant>)

  /** The columns of a `weather_data` row that the validators read. A column is `Missing`
      when the row has no such key and `Null` when its value is `None`; `otherColumns`
      says whether the row has any further keys, which decides the truthiness of an
      otherwise empty row. */
  datatype WeatherRow = WeatherRow(
    windSpeed: Field<real>, windGust: Field<real>, severeAlert: Field<bool>,
    alertType: Field<string>, otherColumns: bool)
  {
    /** `bool(row)`: a dictionary is truthy when it has at least one key. */
    predicate Truthy() {
      !windSpeed.Missing? || !windGust.Missing? || !severeAlert.Missing? || !alertType.Missing? || otherColumns
    }
  }

  /** The claim row `insert_claim` writes: the validation, approval and denial columns are
      not part of its INSERT, and an empty fraud-flag list is stored as NULL. */
  function StoredClaim(c: Claim): (s: Claim)
    ensures s.claimId == c.claimId && s.policyId == c.policyId && s.status == c.status
    ensures s.payoutAmount == c.payoutAmount && s.filedAt == c.filedAt
    ensures s.validatedAt.None? && s.approvedAt.None? && s.deniedAt.None? && s.denialReason.None?
    ensures s.fraudFlags.Some? <==> c.fraudFlags.Some? && Truthy(c.fraudFlags.value)
  {
    c.(validatedAt := None, approvedAt := None, deniedAt := None, denialReason := None,
       fraudFlags := if c.fraudFlags.Some? && Truthy(c.fraudFlags.value) then c.fraudFlags else None)
  }

  /** The payout row `insert_payout` writes: completion time and transaction id are not part
      of its INSERT. */
  function StoredPayout(p: Payout): (s: Payout)
    ensures s.payoutId == p.payoutId && s.claimId == p.claimId && s.amount == p.amount
    ensures s.status == p.status && s.completedAt.None? && s.transactionId.None?
  {
    p.(completedAt := None, transactionId := None)
  }

  /** `UPDATE claims SET status = … WHERE claim_id = id`. */
  function SetClaimStatus(rows: seq<Claim>, id: string, st: ClaimStatus): (r: seq<Claim>)
    ensures |r| == |rows|
    ensures forall i :: 0 <= i < |rows| ==>
      r[i] == if rows[i].claimId == id then rows[i].(status := st) else rows[i]
  {
    if rows == [] then []
    else ([if rows[0].claimId == id then rows[0].(status := st) else rows[0]]
      + SetClaimStatus(rows[1..], id, st))
  }

  /** `UPDATE payouts SET status = …[, completed_at = …, transaction_id = …] WHERE
      payout_id = id`; `completion` is `None` when only the status is set. */
  function UpdatePayoutRows(rows: seq<Payout>, id: string, st: PayoutStatus,
                            completion: Option<(Instant, string)>): (r: seq<Payout>)
    ensures |r| == |rows|
    ensures forall i :: 0 <= i < |rows| ==>
      r[i] == if rows[i].payoutId == id then SetPayout(rows[i], st, completion) else rows[i]
  {
    if rows == [] then []
    else ([if rows[0].payoutId == id then SetPayout(rows[0], st, completion) else rows[0]]
      + UpdatePayoutRows(rows[1..], id, st, completion))
  }

  function SetPayout(p: Payout, st: PayoutStatus, completion: Option<(Instant, string)>): Payout {
    match completion
    case None => p.(status := st)
    case Some(c) => p.(status := st, completedAt := Some(c.0), transactionId := Some(c.1))
  }

  /** The first row with the given id, as `df.iloc[0]` of a `WHERE id = …` query. */
  function FindClaim(rows: seq<Claim>, id: string): (r: Option<Claim>)
    ensures r.Some? <==> exists i :: 0 <= i < |rows| && rows[i].claimId == id
    ensures r.Some? ==> r.value in rows && r.value.claimId == id
  {
    if rows == [] then None
    else if rows[0].claimId == id then Some(rows[0])
    else FindClaim(rows[1..], id)
  }

  /** `get_outage_event(id)`: the first row with that event id. */
  function FindOutage(rows: seq<OutageRow>, id: string): (r: Option<OutageRow>)
    ensures r.Some? <==> exists i :: 0 <= i < |rows| && rows[i].eventId == id
    ensures r.Some? ==> r.value in rows && r.value.eventId == id
  {
    if rows == [] then None
    else if rows[0].eventId == id then Some(rows[0])
    else FindOutage(rows[1..], id)
  }

  /** `get_policy(id)`: the first row with that policy id. */
  function FindPolicy(rows: seq<Policy>, id: string): (r: Option<Policy>)
    ensures r.Some? <==> exists i :: 0 <= i < |rows| && rows[i].policyId == id
    ensures r.Some? ==> r.value in rows && r.value.policyId == id
  {
    if rows == [] then None
    else if rows[0].policyId == id then Some(rows[0])
    else FindPolicy(rows[1..], id)
  }

  /** An update never adds or removes rows and leaves every row of another id as it was. */
  lemma UpdatesTouchOnlyTheirId(rows: seq<Claim>, prow: seq<Payout>, id: string, cst: ClaimStatus,
                                pst: PayoutStatus, completion: Option<(Instant, string)>)
    ensures forall i :: 0 <= i < |rows| && rows[i].claimId != id ==> SetClaimStatus(rows, id, cst)[i] == rows[i]
    ensures forall i :: 0 <= i < |prow| && prow[i].payoutId != id ==>
      UpdatePayoutRows(prow, id, pst, completion)[i] == prow[i]
    ensures forall i :: 0 <= i < |rows| && rows[i].claimId == id ==> SetClaimStatus(rows, id, cst)[i].status == cst
  {
  }

  /** The claims and payouts tables. */
  class Warehouse {
    var claims: seq<Claim>
    var payouts: seq<Payout>

    constructor (claims0: seq<Claim>, payouts0: seq<Payout>)
      ensures claims == claims0 && payouts == payouts0
    {
      claims := claims0;
      payouts := payouts0;
    }

    /** `insert_claim(claim)`. */
    method InsertClaim(c: Claim)
      modifies this
      ensures claims == old(claims) + [StoredClaim(c)] && payouts == old(payouts)
    {
      claims := claims + [StoredClaim(c)];
    }

    /** `update_claim(claim_id, status=…)`. */
    method UpdateClaimStatus(id: string, st: ClaimStatus)
      modifies this
      ensures claims == SetClaimStatus(old(claims), id, st) && payouts == old(payouts)
    {
      claims := SetClaimStatus(claims, id, st);
    }

    /** `insert_payout(payout)`. */
    method InsertPayout(p: Payout)
      modifies this
      ensures payouts == old(payouts) + [StoredPayout(p)] && claims == old(claims)
    {
      payouts := payouts + [StoredPayout(p)];
    }

    /** `update_payout(payout_id, status=…[, completed_at=…, transaction_id=…])`. */
    method UpdatePayout(id: string, st: PayoutStatus, completion: Option<(Instant, string)>)
      modifies this
      ensures payouts == UpdatePayoutRows(old(payouts), id, st, completion) && claims == old(claims)
    {
      payouts := UpdatePayoutRows(payouts, id, st, completion);
    }
  }
}
