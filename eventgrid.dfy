/** `shared/eventgrid_client.py`: the event types, the envelope and payload each
    `publish_*` method builds, and the topic client whose sends succeed or fail. */
module EventGrid {
  import opened Wrappers
  import opened Text
  import opened Json
  import opened Clock
  import opened Models

  const OutageDetected: string := "outage.detected"
  const OutageThresholdExceeded: string := "outage.threshold.exceeded"
  const OutageValidated: string := "outage.validated"
  const OutageResolved: string := "outage.resolved"
  const ClaimApproved: string := "claim.approved"
  const ClaimDenied: string := "claim.denied"
  const PayoutProcessed: string := "payout.processed"

  /** An Event Grid event as `_create_event` builds it; its uuid and event time are not
      part of the model. */
  datatype Event = Event(eventType: string, subject: string, data: Json, dataVersion: string)

  /** `_create_event(event_type, subject, data)` with the default data version. */
  function CreateEvent(eventType: string, subject: string, data: Json): (e: Event)
    ensures e.eventType == eventType && e.subject == subject && e.data == data
    ensures e.dataVersion == "1.0"
  {
    Event(eventType, subject, data, "1.0")
  }

  /** The identifier a subject of the form `prefix + id` names, if it has that prefix. */
  function SubjectId(prefix: string, subject: string): (r: Option<string>)
    ensures r.Some? <==> StartsWith(subject, prefix)
    ensures r.Some? ==> subject == prefix + r.value
  {
    if StartsWith(subject, prefix) then Some(subject[|prefix|..]) else None
  }

  /** Reading back the identifier of a subject built from it. */
  lemma SubjectRoundTrip(prefix: string, id: string)
    ensures SubjectId(prefix, prefix + id) == Some(id)
  {
    assert (prefix + id)[..|prefix|] == prefix;
    assert (prefix + id)[|prefix|..] == id;
  }

  function OptInstant(t: Option<Instant>): Json {
    match t
    case None => JNull
    case Some(v) => JStr(Iso(v))
  }

  function OptReal(x: Option<real>): Json {
    match x
    case None => JNull
    case Some(v) => JNum(v)
  }

  function OptJson(x: Option<Json>): Json {
    match x
    case None => JNull
    case Some(v) => v
  }

  function OptInt(x: Option<int>): Json {
    match x
    case None => JNull
    case Some(v) => JInt(v)
  }

  /** The payload of `publish_outage_detected`. */
  const OutageDetectedKeys: seq<string> := ["event_id", "utility_name", "location", "affected_customers", "outage_start", "status", "cause", "affected_policies", "policy_count"]

  function OutageDetectedData(o: OutageEvent, affected: seq<string>): (fields: seq<(string, Json)>)
    ensures Keys(fields) == OutageDetectedKeys
  {
    Zip(OutageDetectedKeys, OutageDetectedValues(o, affected))
  }

  function OutageDetectedValues(o: OutageEvent, affected: seq<string>): (values: seq<Json>)
    ensures |values| == |OutageDetectedKeys|
  {
    [JStr(o.eventId), JStr(o.utilityName), o.location.ToJson(), JInt(o.affectedCustomers), JStr(Iso(o.outageStart)), JStr(o.status.Value()), OptStr(o.cause), StrList(affected), JInt(|affected|)]
  }

  /** The event `publish_outage_detected(outage_event, affected_policies)` sends. */
  lemma OutageDetectedKeysDistinct()
    ensures DistinctKeys(OutageDetectedKeys)
  {
  }

  lemma OutageDetectedFields(o: OutageEvent, affected: seq<string>)
    ensures Lookup(OutageDetectedData(o, affected), "affected_policies") == Some(StrList(affected))
    ensures Lookup(OutageDetectedData(o, affected), "policy_count") == Some(JInt(|affected|))
    ensures Lookup(OutageDetectedData(o, affected), "event_id") == Some(JStr(o.eventId))
  {
    OutageDetectedKeysDistinct();
    LookupZip(OutageDetectedKeys, OutageDetectedValues(o, affected), 8);
    LookupZip(OutageDetectedKeys, OutageDetectedValues(o, affected), 7);
    LookupZip(OutageDetectedKeys, OutageDetectedValues(o, affected), 0);
  }

  function OutageDetectedEvent(o: OutageEvent, affected: seq<string>): (e: Event)
    ensures e.eventType == OutageDetected && SubjectId("outage/", e.subject) == Some(o.eventId)
    ensures e.data == JObj(OutageDetectedData(o, affected))
  {
    var fields := OutageDetectedData(o, affected);
    SubjectRoundTrip("outage/", o.eventId);
    CreateEvent(OutageDetected, "outage/" + o.eventId, JObj(fields))
  }

  /** The payload of `publish_threshold_exceeded`. */
  const ThresholdExceededKeys: seq<string> := ["policy_id", "event_id", "duration_minutes", "threshold_minutes", "minutes_over_threshold", "location", "utility_name", "affected_customers"]

  function ThresholdExceededData(policyId: string, o: OutageEvent, duration: int, threshold: int): (fields: seq<(string, Json)>)
    ensures Keys(fields) == ThresholdExceededKeys
  {
    Zip(ThresholdExceededKeys, ThresholdExceededValues(policyId, o, duration, threshold))
  }

  function ThresholdExceededValues(policyId: string, o: OutageEvent, duration: int, threshold: int): (values: seq<Json>)
    ensures |values| == |ThresholdExceededKeys|
  {
    [JStr(policyId), JStr(o.eventId), JInt(duration), JInt(threshold), JInt(duration - threshold), o.location.ToJson(), JStr(o.utilityName), JInt(o.affectedCustomers)]
  }

  /** The event `publish_threshold_exceeded(policy_id, outage_event, duration, threshold)` sends. */
  lemma ThresholdExceededKeysDistinct()
    ensures DistinctKeys(ThresholdExceededKeys)
  {
  }

  lemma ThresholdExceededFields(policyId: string, o: OutageEvent, duration: int, threshold: int)
    ensures Lookup(ThresholdExceededData(policyId, o, duration, threshold), "policy_id") == Some(JStr(policyId))
    ensures Lookup(ThresholdExceededData(policyId, o, duration, threshold), "minutes_over_threshold") == Some(JInt(duration - threshold))
    ensures Lookup(ThresholdExceededData(policyId, o, duration, threshold), "duration_minutes") == Some(JInt(duration))
    ensures Lookup(ThresholdExceededData(policyId, o, duration, threshold), "threshold_minutes") == Some(JInt(threshold))
  {
    ThresholdExceededKeysDistinct();
    LookupZip(ThresholdExceededKeys, ThresholdExceededValues(policyId, o, duration, threshold), 0);
    LookupZip(ThresholdExceededKeys, ThresholdExceededValues(policyId, o, duration, threshold), 2);
    LookupZip(ThresholdExceededKeys, ThresholdExceededValues(policyId, o, duration, threshold), 3);
    LookupZip(ThresholdExceededKeys, ThresholdExceededValues(policyId, o, duration, threshold), 4);
  }

  function ThresholdExceededEvent(policyId: string, o: OutageEvent, duration: int, threshold: int): (e: Event)
    ensures e.eventType == OutageThresholdExceeded && SubjectId("policy/", e.subject) == Some(policyId)
    ensures e.data.JObj?
    ensures Lookup(e.data.fields, "policy_id") == Some(JStr(policyId))
    ensures Lookup(e.data.fields, "minutes_over_threshold") == Some(JInt(duration - threshold))
    ensures Lookup(e.data.fields, "duration_minutes") == Some(JInt(duration))
    ensures Lookup(e.data.fields, "threshold_minutes") == Some(JInt(threshold))
  {
    var fields := ThresholdExceededData(policyId, o, duration, threshold);
    ThresholdExceededFields(policyId, o, duration, threshold);
    SubjectRoundTrip("policy/", policyId);
    CreateEvent(OutageThresholdExceeded, "policy/" + policyId, JObj(fields))
  }

  /** The payload of `publish_claim_validated`. */
  const ClaimValidatedKeys: seq<string> := ["claim_id", "policy_id", "outage_event_id", "status", "payout_amount", "ai_confidence_score", "ai_reasoning", "fraud_flags", "validation_result"]

  function ClaimValidatedData(c: Claim, validation: Json): (fields: seq<(string, Json)>)
    ensures Keys(fields) == ClaimValidatedKeys
  {
    Zip(ClaimValidatedKeys, ClaimValidatedValues(c, validation))
  }

  function ClaimValidatedValues(c: Claim, validation: Json): (values: seq<Json>)
    ensures |values| == |ClaimValidatedKeys|
  {
    [JStr(c.claimId), JStr(c.policyId), JStr(c.outageEventId), JStr(c.status.Value()), OptReal(c.payoutAmount), OptReal(c.aiConfidenceScore), OptJson(c.aiReasoning), OptJson(c.fraudFlags), validation]
  }

  /** The event `publish_claim_validated(claim, validation_result)` sends: an approval
      exactly when the claim's status is "approved", a denial for every other status. */
  lemma ClaimValidatedKeysDistinct()
    ensures DistinctKeys(ClaimValidatedKeys)
  {
  }

  lemma ClaimValidatedFields(c: Claim, validation: Json)
    ensures Lookup(ClaimValidatedData(c, validation), "status") == Some(JStr(c.status.Value()))
    ensures Lookup(ClaimValidatedData(c, validation), "validation_result") == Some(validation)
  {
    ClaimValidatedKeysDistinct();
    LookupZip(ClaimValidatedKeys, ClaimValidatedValues(c, validation), 3);
    LookupZip(ClaimValidatedKeys, ClaimValidatedValues(c, validation), 8);
  }

  function ClaimValidatedEvent(c: Claim, validation: Json): (e: Event)
    ensures e.eventType == ClaimApproved <==> c.status == Approved
    ensures e.eventType == ClaimDenied <==> c.status != Approved
    ensures SubjectId("claim/", e.subject) == Some(c.claimId)
    ensures e.data.JObj? && Lookup(e.data.fields, "status") == Some(JStr(c.status.Value()))
    ensures Lookup(e.data.fields, "validation_result") == Some(validation)
  {
    var fields := ClaimValidatedData(c, validation);
    ClaimValidatedFields(c, validation);
    SubjectRoundTrip("claim/", c.claimId);
    ApprovedValue(c.status);
    var eventType := if c.status.Value() == "approved" then ClaimApproved else ClaimDenied;
    CreateEvent(eventType, "claim/" + c.claimId, JObj(fields))
  }

  lemma ApprovedValue(s: ClaimStatus)
    ensures s.Value() == "approved" <==> s == Approved
  {
    assert ParseClaimStatus("approved") == Some(Approved);
  }

  /** The payload of `publish_outage_resolved`. */
  const OutageResolvedKeys: seq<string> := ["event_id", "utility_name", "location", "outage_start", "outage_end", "duration_minutes", "affected_claims", "claim_count"]

  function OutageResolvedData(o: OutageEvent, claims: seq<string>): (fields: seq<(string, Json)>)
    ensures Keys(fields) == OutageResolvedKeys
  {
    Zip(OutageResolvedKeys, OutageResolvedValues(o, claims))
  }

  function OutageResolvedValues(o: OutageEvent, claims: seq<string>): (values: seq<Json>)
    ensures |values| == |OutageResolvedKeys|
  {
    [JStr(o.eventId), JStr(o.utilityName), o.location.ToJson(), JStr(Iso(o.outageStart)), OptInstant(o.outageEnd), OptInt(o.durationMinutes), StrList(claims), JInt(|claims|)]
  }

  /** The event `publish_outage_resolved(outage_event, affected_claims)` sends. */
  lemma OutageResolvedKeysDistinct()
    ensures DistinctKeys(OutageResolvedKeys)
  {
  }

  lemma OutageResolvedFields(o: OutageEvent, claims: seq<string>)
    ensures Lookup(OutageResolvedData(o, claims), "claim_count") == Some(JInt(|claims|))
    ensures Lookup(OutageResolvedData(o, claims), "outage_end") == Some(OptInstant(o.outageEnd))
  {
    OutageResolvedKeysDistinct();
    LookupZip(OutageResolvedKeys, OutageResolvedValues(o, claims), 7);
    LookupZip(OutageResolvedKeys, OutageResolvedValues(o, claims), 4);
  }

  function OutageResolvedEvent(o: OutageEvent, claims: seq<string>): (e: Event)
    ensures e.eventType == OutageResolved && SubjectId("outage/", e.subject) == Some(o.eventId)
    ensures e.data.JObj?
    ensures Lookup(e.data.fields, "claim_count") == Some(JInt(|claims|))
    ensures Lookup(e.data.fields, "outage_end") == Some(JNull) <==> o.outageEnd.None?
  {
    var fields := OutageResolvedData(o, claims);
    OutageResolvedFields(o, claims);
    SubjectRoundTrip("outage/", o.eventId);
    CreateEvent(OutageResolved, "outage/" + o.eventId, JObj(fields))
  }

  /** The payload of `publish_payout_processed`; the claim argument is not part of it. */
  const PayoutProcessedKeys: seq<string> := ["payout_id", "claim_id", "policy_id", "amount", "status", "initiated_at", "completed_at", "payment_method", "transaction_id"]

  function PayoutProcessedData(p: Payout): (fields: seq<(string, Json)>)
    ensures Keys(fields) == PayoutProcessedKeys
  {
    Zip(PayoutProcessedKeys, PayoutProcessedValues(p))
  }

  function PayoutProcessedValues(p: Payout): (values: seq<Json>)
    ensures |values| == |PayoutProcessedKeys|
  {
    [JStr(p.payoutId), JStr(p.claimId), JStr(p.policyId), JNum(p.amount), JStr(p.status.Value()), JStr(Iso(p.initiatedAt)), OptInstant(p.completedAt), JStr(p.paymentMethod), OptStr(p.transactionId)]
  }

  /** The event `publish_payout_processed(payout, claim)` sends. */
  lemma PayoutProcessedKeysDistinct()
    ensures DistinctKeys(PayoutProcessedKeys)
  {
  }

  lemma PayoutProcessedFields(p: Payout)
    ensures Lookup(PayoutProcessedData(p), "completed_at") == Some(OptInstant(p.completedAt))
    ensures Lookup(PayoutProcessedData(p), "status") == Some(JStr(p.status.Value()))
    ensures Lookup(PayoutProcessedData(p), "amount") == Some(JNum(p.amount))
  {
    PayoutProcessedKeysDistinct();
    LookupZip(PayoutProcessedKeys, PayoutProcessedValues(p), 6);
    LookupZip(PayoutProcessedKeys, PayoutProcessedValues(p), 4);
    LookupZip(PayoutProcessedKeys, PayoutProcessedValues(p), 3);
  }

  function PayoutProcessedEvent(p: Payout, c: Claim): (e: Event)
    ensures e.eventType == PayoutProcessed && SubjectId("payout/", e.subject) == Some(p.payoutId)
    ensures e.data.JObj?
    ensures Lookup(e.data.fields, "completed_at") == Some(JNull) <==> p.completedAt.None?
    ensures Lookup(e.data.fields, "status") == Some(JStr(p.status.Value()))
    ensures Lookup(e.data.fields, "amount") == Some(JNum(p.amount))
  {
    var fields := PayoutProcessedData(p);
    PayoutProcessedFields(p);
    SubjectRoundTrip("payout/", p.payoutId);
    CreateEvent(PayoutProcessed, "payout/" + p.payoutId, JObj(fields))
  }

  /** The payout event does not depend on the claim it is published with. */
  lemma PayoutEventIgnoresClaim(p: Payout, c1: Claim, c2: Claim)
    ensures PayoutProcessedEvent(p, c1) == PayoutProcessedEvent(p, c2)
  {
  }

  /** `str(v)` for the scalar JSON values, exactly; `render` stands for `str` of a float,
      a list or a dictionary. */
  function PyStr(v: Json, render: Json -> string): (s: string)
    ensures v.JStr? ==> s == v.s
  {
    match v
    case JStr(s) => s
    case JInt(i) => IntToString(i)
    case JBool(b) => if b then "True" else "False"
    case JNull => "None"
    case _ => render(v)
  }

  /** `data['policy_id']` for one batch item: a `TypeError` for a non-dictionary and a
      `KeyError` for a dictionary without the key. */
  function BatchItemPolicyId(item: Json): (r: Result<Json>)
    ensures r.Ok? <==> HasKey(item, "policy_id")
  {
    if !item.JObj? then Err("TypeError: item is not a dictionary")
    else match Lookup(item.fields, "policy_id")
      case None => Err("KeyError: 'policy_id'")
      case Some(v) => Ok(v)
  }

  /** The events `publish_batch_threshold_exceeded(events_data)` builds, one per item in
      order; the list comprehension raises on the first item without a policy id. */
  function BatchThresholdEvents(items: seq<Json>, render: Json -> string): (r: Result<seq<Event>>)
    ensures r.Ok? <==> forall i :: 0 <= i < |items| ==> HasKey(items[i], "policy_id")
    ensures r.Ok? ==> |r.value| == |items|
    ensures r.Ok? ==> forall i :: 0 <= i < |items| ==>
      r.value[i].eventType == OutageThresholdExceeded && r.value[i].data == items[i]
      && StartsWith(r.value[i].subject, "policy/")
  {
    if items == [] then Ok([])
    else
      match BatchItemPolicyId(items[0])
      case Err(msg) => Err(msg)
      case Ok(id) =>
        match BatchThresholdEvents(items[1..], render)
        case Err(msg) => Err(msg)
        case Ok(rest) =>
          var e := CreateEvent(OutageThresholdExceeded, "policy/" + PyStr(id, render), items[0]);
          assert StartsWith(e.subject, "policy/");
          Ok([e] + rest)
  }

  /** The subject of each batch event names the item's policy id when it is a string. */
  lemma {:induction false} BatchSubjects(items: seq<Json>, render: Json -> string, i: int)
    requires BatchThresholdEvents(items, render).Ok? && 0 <= i < |items|
    requires Lookup(items[i].fields, "policy_id").Some? && Lookup(items[i].fields, "policy_id").value.JStr?
    ensures SubjectId("policy/", BatchThresholdEvents(items, render).value[i].subject)
      == Some(Lookup(items[i].fields, "policy_id").value.s)
  {
    var all := BatchThresholdEvents(items, render);
    assert HasKey(items[0], "policy_id");
    var id := BatchItemPolicyId(items[0]).value;
    var rest := BatchThresholdEvents(items[1..], render);
    assert rest.Ok?;
    var e := CreateEvent(OutageThresholdExceeded, "policy/" + PyStr(id, render), items[0]);
    assert all.value == [e] + rest.value;
    if i > 0 {
      assert all.value[i] == rest.value[i - 1];
      assert items[1..][i - 1] == items[i];
      BatchSubjects(items[1..], render, i - 1);
    } else {
      assert all.value[0] == e;
      SubjectRoundTrip("policy/", Lookup(items[0].fields, "policy_id").value.s);
    }
  }

  /** What a single send of `e` delivers. */
  function Delivered(e: Event, accepted: bool): seq<Event> {
    if accepted then [e] else []
  }

  /** The Event Grid topic as the client sees it: the events it has accepted so far. Each
      send's outcome is an input, since the SDK call is outside the model. */
  class EventGridClient {
    var sent: seq<Event>

    constructor ()
      ensures sent == []
    {
      sent := [];
    }

    /** `client.send(events)` inside `publish_events`: `True` and the events delivered when
        the send succeeds, `False` and nothing delivered when it raises. */
    method PublishEvents(events: seq<Event>, accepted: bool) returns (ok: bool)
      modifies this
      ensures ok == accepted
      ensures sent == old(sent) + (if accepted then events else [])
    {
      if accepted {
        sent := sent + events;
      }
      ok := accepted;
    }

    /** `publish_event(event_type, subject, data)`: one event, sent on its own. */
    method PublishEvent(e: Event, accepted: bool) returns (ok: bool)
      modifies this
      ensures ok == accepted
      ensures sent == old(sent) + Delivered(e, accepted)
    {
      ok := PublishEvents([e], accepted);
    }

    /** `publish_batch_threshold_exceeded(events_data)`: the batch is either delivered whole
        or not at all; building it raises before anything is sent. */
    method PublishBatchThresholdExceeded(items: seq<Json>, render: Json -> string, accepted: bool)
      returns (r: Result<bool>)
      modifies this
      ensures BatchThresholdEvents(items, render).Err? ==> r.Err? && sent == old(sent)
      ensures BatchThresholdEvents(items, render).Ok? ==>
        r == Ok(accepted)
        && sent == old(sent) + (if accepted then BatchThresholdEvents(items, render).value else [])
    {
      var events := BatchThresholdEvents(items, render);
      if events.Err? {
        return Err(events.error);
      }
      var ok := PublishEvents(events.value, accepted);
      return Ok(ok);
    }
  }
}
