/** The records, status enumerations and pure business rules of `shared/models.py`:
    payout arithmetic, the policy activity window, the weather severity score and
    identifier construction. */
module Models {
  import opened Wrappers
  import opened Text
  import opened Json
  import opened Clock

  // ---- status enumerations ----

  datatype OutageStatus = Active | Resolved | Investigating {
    /** The enumeration's `.value`. */
    function Value(): string {
      match this
      case Active => "active"
      case Resolved => "resolved"
      case Investigating => "investigating"
    }
  }

  /** `OutageStatus(s)`: the member whose value is `s`; `None` where Python raises
      `ValueError`. */
  function ParseOutageStatus(s: string): (r: Option<OutageStatus>)
    ensures r.Some? ==> r.value.Value() == s
    ensures forall st: OutageStatus :: st.Value() == s ==> r == Some(st)
  {
    if s == "active" then Some(Active)
    else if s == "resolved" then Some(Resolved)
    else if s == "investigating" then Some(Investigating)
    else None
  }

  datatype ClaimStatus = Pending | Validating | Approved | Denied | Paid {
    function Value(): string {
      match this
      case Pending => "pending"
      case Validating => "validating"
      case Approved => "approved"
      case Denied => "denied"
      case Paid => "paid"
    }
  }

  /** `ClaimStatus(s)`, `None` where Python raises `ValueError`. */
  function ParseClaimStatus(s: string): (r: Option<ClaimStatus>)
    ensures r.Some? ==> r.value.Value() == s
    ensures forall st: ClaimStatus :: st.Value() == s ==> r == Some(st)
  {
    if s == "pending" then Some(Pending)
    else if s == "validating" then Some(Validating)
    else if s == "approved" then Some(Approved)
    else if s == "denied" then Some(Denied)
    else if s == "paid" then Some(Paid)
    else None
  }

  datatype PayoutStatus = PayoutPending | Processing | Completed | Failed {
    function Value(): string {
      match this
      case PayoutPending => "pending"
      case Processing => "processing"
      case Completed => "completed"
      case Failed => "failed"
    }
  }

  /** `PayoutStatus(s)`, `None` where Python raises `ValueError`. */
  function ParsePayoutStatus(s: string): (r: Option<PayoutStatus>)
    ensures r.Some? ==> r.value.Value() == s
    ensures forall st: PayoutStatus :: st.Value() == s ==> r == Some(st)
  {
    if s == "pending" then Some(PayoutPending)
    else if s == "processing" then Some(Processing)
    else if s == "completed" then Some(Completed)
    else if s == "failed" then Some(Failed)
    else None
  }

  // ---- records ----

  datatype Location = Location(
    latitude: real, longitude: real, zipCode: string,
    address: Option<string>, city: Option<string>, state: Option<string>)
  {
    /** `to_dict()`: the dataclass fields in declaration order. */
    function ToJson(): (j: Json)
      ensures j.JObj? && Keys(j.fields) == LocationKeys
      ensures Lookup(j.fields, "zip_code") == Some(JStr(zipCode))
    {
      var values := [JNum(latitude), JNum(longitude), JStr(zipCode), OptStr(address), OptStr(city), OptStr(state)];
      LocationKeysDistinct();
      LookupZip(LocationKeys, values, 2);
      JObj(Zip(LocationKeys, values))
    }
  }

  const LocationKeys: seq<string> := ["latitude", "longitude", "zip_code", "address", "city", "state"]

  lemma LocationKeysDistinct()
    ensures DistinctKeys(LocationKeys)
  {
  }

  datatype OutageEvent = OutageEvent(
    eventId: string, utilityName: string, location: Location, affectedCustomers: int,
    outageStart: Instant, outageEnd: Option<Instant>, durationMinutes: Option<int>,
    status: OutageStatus, cause: Option<string>, reportedCause: Option<string>,
    dataSource: string, lastUpdated: Option<Instant>)

  datatype Policy = Policy(
    policyId: string, businessName: string, location: Location, thresholdMinutes: int,
    hourlyRate: real, maxPayout: real, status: string,
    effectiveDate: Option<Instant>, expirationDate: Option<Instant>,
    contactEmail: Option<string>, contactPhone: Option<string>, businessType: Option<string>)

  datatype Claim = Claim(
    claimId: string, policyId: string, outageEventId: string, status: ClaimStatus,
    filedAt: Instant, validatedAt: Option<Instant>, approvedAt: Option<Instant>,
    deniedAt: Option<Instant>, denialReason: Option<Json>, payoutAmount: Option<real>,
    aiConfidenceScore: Option<real>, aiReasoning: Option<Json>, fraudFlags: Option<Json>)

  datatype Payout = Payout(
    payoutId: string, claimId: string, policyId: string, amount: real, status: PayoutStatus,
    initiatedAt: Instant, completedAt: Option<Instant>, transactionId: Option<string>,
    paymentMethod: string)

  /** `AIValidationResult`. The text-valued fields are JSON values because a result parsed
      from the language model carries whatever value the reply held. */
  datatype Validation = Validation(
    decision: Json, confidence: real, payout: real, reasoning: Json, evidence: Json,
    fraudSignals: Json, severity: Json, weatherFactor: real)
  {
    /** `to_dict()` (`asdict`): the dataclass fields in declaration order. */
    function ToJson(): (j: Json)
      ensures j.JObj? && Keys(j.fields) == ValidationKeys
      ensures Lookup(j.fields, "decision") == Some(decision)
      ensures Lookup(j.fields, "payout_amount") == Some(JNum(payout))
    {
      var values := [decision, JNum(confidence), JNum(payout), reasoning, evidence, fraudSignals,
                     severity, JNum(weatherFactor)];
      ValidationKeysDistinct();
      LookupZip(ValidationKeys, values, 0);
      LookupZip(ValidationKeys, values, 2);
      JObj(Zip(ValidationKeys, values))
    }
  }

  /** One entry of a validation's evidence list: `{"type": kind, "value": value}`. */
  function EvidenceItem(kind: string, value: string): Json {
    JObj([("type", JStr(kind)), ("value", JStr(value))])
  }

  /** `item[key]` of an evidence entry, when the entry is a dictionary holding text there. */
  function ItemText(item: Json, key: string): (t: Option<string>)
    ensures t.Some? ==> item.JObj? && Lookup(item.fields, key) == Some(JStr(t.value))
  {
    if !item.JObj? then None
    else
      match Lookup(item.fields, key)
      case Some(JStr(text)) => Some(text)
      case _ => None
  }

  /** An entry reads back its kind under "type" and its value under "value". */
  lemma EvidenceItemReads(kind: string, value: string)
    ensures ItemText(EvidenceItem(kind, value), "type") == Some(kind)
    ensures ItemText(EvidenceItem(kind, value), "value") == Some(value)
  {
    var f := EvidenceItem(kind, value).fields;
    LookupLast(f, 0, "type");
    LookupLast(f, 1, "value");
  }

  /** An evidence list: entry `k` has kind `kinds[k]` and value `values[k]`. */
  function Evidence(kinds: seq<string>, values: seq<string>): (j: Json)
    requires |kinds| == |values|
    ensures j.JList? && |j.items| == |kinds|
    ensures forall k :: 0 <= k < |kinds| ==> j.items[k] == EvidenceItem(kinds[k], values[k])
    ensures forall k :: 0 <= k < |kinds| ==>
      ItemText(j.items[k], "type") == Some(kinds[k]) && ItemText(j.items[k], "value") == Some(values[k])
  {
    var items := seq(|kinds|, k requires 0 <= k < |kinds| => EvidenceItem(kinds[k], values[k]));
    EvidenceReads(kinds, values, items);
    JList(items)
  }

  lemma EvidenceReads(kinds: seq<string>, values: seq<string>, items: seq<Json>)
    requires |kinds| == |values| == |items|
    requires forall k :: 0 <= k < |items| ==> items[k] == EvidenceItem(kinds[k], values[k])
    ensures forall k :: 0 <= k < |items| ==>
      ItemText(items[k], "type") == Some(kinds[k]) && ItemText(items[k], "value") == Some(values[k])
  {
    forall k | 0 <= k < |items|
      ensures ItemText(items[k], "type") == Some(kinds[k]) && ItemText(items[k], "value") == Some(values[k])
    {
      EvidenceItemReads(kinds[k], values[k]);
    }
  }

  /** An outage's `outage_start` as a validator receives it: a timestamp read from the
      warehouse (a `pd.Timestamp` of a `datetime2` column, without a UTC offset), or ISO
      text, with or without a UTC offset ("Z" counts as one). */
  datatype StartValue = WarehouseTime(at: Instant) | IsoText(at: Instant, aware: bool)

  /** `str(start)`: a warehouse timestamp renders as ISO text without an offset. */
  function AsText(start: StartValue): (t: StartValue)
    ensures t.IsoText? && t.at == start.at
    ensures start.IsoText? ==> t == start
  {
    match start
    case WarehouseTime(at) => IsoText(at, false)
    case IsoText(_, _) => start
  }

  /** `datetime.fromisoformat(start.replace('Z', '+00:00'))` and then
      `(datetime.utcnow() - outage_start).total_seconds() / 60`: `Timestamp.replace` takes
      date fields, not strings, and `utcnow()` has no offset, so only text without an
      offset gives the minutes elapsed up to `now`. */
  function ElapsedMinutes(start: StartValue, now: Instant): (r: Result<real>)
    ensures r.Ok? <==> start.IsoText? && !start.aware
    ensures r.Ok? ==> r.value == (now - start.at) as real / 60.0
  {
    match start
    case WarehouseTime(_) => Err("Timestamp.replace: the arguments must be date fields")
    case IsoText(at, aware) =>
      if aware then Err("TypeError: can't subtract offset-naive and offset-aware datetimes")
      else Ok((now - at) as real / 60.0)
  }

  /** The outage duration the rule-based validators work with: the recorded duration when
      it is truthy, otherwise the estimate from the outage start, which can raise. */
  function ValidatorDuration(recorded: Option<int>, start: StartValue, now: Instant): (r: Result<real>)
    ensures recorded.Some? && recorded.value != 0 ==> r == Ok(recorded.value as real)
    ensures recorded.None? || recorded.value == 0 ==> r == ElapsedMinutes(start, now)
  {
    if recorded.Some? && recorded.value != 0 then Ok(recorded.value as real)
    else ElapsedMinutes(start, now)
  }

  const ValidationKeys: seq<string> := ["decision", "confidence_score", "payout_amount", "reasoning",
    "evidence", "fraud_signals", "severity_assessment", "weather_factor"]

  lemma ValidationKeysDistinct()
    ensures DistinctKeys(ValidationKeys)
  {
  }

  /** Every field of `to_dict()` holds the value of the attribute of the same name. */
  lemma ValidationFields(v: Validation)
    ensures var f := v.ToJson().fields;
      Lookup(f, "decision") == Some(v.decision) && Lookup(f, "confidence_score") == Some(JNum(v.confidence))
      && Lookup(f, "payout_amount") == Some(JNum(v.payout)) && Lookup(f, "reasoning") == Some(v.reasoning)
      && Lookup(f, "evidence") == Some(v.evidence) && Lookup(f, "fraud_signals") == Some(v.fraudSignals)
      && Lookup(f, "severity_assessment") == Some(v.severity) && Lookup(f, "weather_factor") == Some(JNum(v.weatherFactor))
  {
    var values := [v.decision, JNum(v.confidence), JNum(v.payout), v.reasoning, v.evidence, v.fraudSignals,
                   v.severity, JNum(v.weatherFactor)];
    assert v.ToJson().fields == Zip(ValidationKeys, values);
    ValidationKeysDistinct();
    LookupZip(ValidationKeys, values, 0);
    LookupZip(ValidationKeys, values, 1);
    LookupZip(ValidationKeys, values, 2);
    LookupZip(ValidationKeys, values, 3);
    LookupZip(ValidationKeys, values, 4);
    LookupZip(ValidationKeys, values, 5);
    LookupZip(ValidationKeys, values, 6);
    LookupZip(ValidationKeys, values, 7);
  }

  /** A key of a dictionary row: absent, present with `None`, or present with a value. */
  datatype Field<+T> = Missing | Null | Val(v: T)

  // ---- payout arithmetic ----

  function Min(a: real, b: real): (m: real)
    ensures m <= a && m <= b && (m == a || m == b)
  {
    if a <= b then a else b
  }

  /** `(duration - threshold) / 60`: the hours by which a duration in minutes exceeds the
      threshold, negative when it falls short. */
  function HoursOver(duration: real, threshold: int): (h: real)
    ensures h * 60.0 == duration - threshold as real
    ensures h > 0.0 <==> duration > threshold as real
  {
    (duration - threshold as real) / 60.0
  }

  /** Payout before the cap: hours over the threshold times the hourly rate times the
      severity multiplier. */
  function RawPayout(duration: real, threshold: int, rate: real, multiplier: real): real {
    (duration - threshold as real) / 60.0 * rate * multiplier
  }

  /** `Policy.calculate_payout(duration_minutes, severity_multiplier)`. */
  function CalculatePayout(p: Policy, duration: int, multiplier: real): (r: real)
    ensures duration <= p.thresholdMinutes ==> r == 0.0
    ensures duration > p.thresholdMinutes ==>
      r <= p.maxPayout && r <= RawPayout(duration as real, p.thresholdMinutes, p.hourlyRate, multiplier)
      && (r == p.maxPayout || r == RawPayout(duration as real, p.thresholdMinutes, p.hourlyRate, multiplier))
  {
    if duration <= p.thresholdMinutes then 0.0
    else Min(RawPayout(duration as real, p.thresholdMinutes, p.hourlyRate, multiplier), p.maxPayout)
  }

  lemma ProductMonotone(a: real, b: real, c: real)
    requires a <= b && c >= 0.0
    ensures a * c <= b * c
  {
  }

  /** The uncapped payout grows with the duration when rate and multiplier are non-negative. */
  lemma RawPayoutMonotone(d1: real, d2: real, threshold: int, rate: real, multiplier: real)
    requires d1 <= d2 && rate >= 0.0 && multiplier >= 0.0
    ensures RawPayout(d1, threshold, rate, multiplier) <= RawPayout(d2, threshold, rate, multiplier)
  {
    var h1 := (d1 - threshold as real) / 60.0;
    var h2 := (d2 - threshold as real) / 60.0;
    ProductMonotone(h1, h2, rate);
    ProductMonotone(h1 * rate, h2 * rate, multiplier);
  }

  /** The uncapped payout is non-negative above the threshold. */
  lemma RawPayoutNonNegative(duration: real, threshold: int, rate: real, multiplier: real)
    requires duration >= threshold as real && rate >= 0.0 && multiplier >= 0.0
    ensures RawPayout(duration, threshold, rate, multiplier) >= 0.0
  {
    RawPayoutMonotone(threshold as real, duration, threshold, rate, multiplier);
  }

  /** With a non-negative rate, multiplier and cap the payout is never negative and never
      decreases as the outage gets longer. */
  lemma CalculatePayoutMonotone(p: Policy, d1: int, d2: int, multiplier: real)
    requires d1 <= d2 && p.hourlyRate >= 0.0 && multiplier >= 0.0 && p.maxPayout >= 0.0
    ensures 0.0 <= CalculatePayout(p, d1, multiplier) <= CalculatePayout(p, d2, multiplier)
  {
    if d1 > p.thresholdMinutes {
      RawPayoutNonNegative(d1 as real, p.thresholdMinutes, p.hourlyRate, multiplier);
      RawPayoutMonotone(d1 as real, d2 as real, p.thresholdMinutes, p.hourlyRate, multiplier);
    } else if d2 > p.thresholdMinutes {
      RawPayoutNonNegative(d2 as real, p.thresholdMinutes, p.hourlyRate, multiplier);
    }
  }

  /** 187 minutes against a 120-minute threshold at 500 per hour pays 558.33 (to the cent). */
  lemma PayoutExample(p: Policy)
    requires p.thresholdMinutes == 120 && p.hourlyRate == 500.0 && p.maxPayout == 10000.0
    ensures CalculatePayout(p, 187, 1.0) == 33500.0 / 60.0
    ensures 558.325 <= CalculatePayout(p, 187, 1.0) < 558.335
  {
  }

  /** A payout of 30 hours over the threshold at 500 per hour (15000) is capped at 10000. */
  lemma PayoutCapExample(p: Policy)
    requires p.thresholdMinutes == 120 && p.hourlyRate == 500.0 && p.maxPayout == 10000.0
    ensures CalculatePayout(p, 120 + 30 * 60, 1.0) == 10000.0
  {
  }

  // ---- policy activity ----

  /** `Policy.is_active()` evaluated at instant `now`. */
  function IsActive(p: Policy, now: Instant): (b: bool)
    ensures p.status != "active" ==> !b
    ensures p.status == "active" ==>
      (!b <==> ((p.effectiveDate.Some? && now < p.effectiveDate.value)
                || (p.expirationDate.Some? && now > p.expirationDate.value)))
  {
    if p.status != "active" then false
    else if p.effectiveDate.Some? && now < p.effectiveDate.value then false
    else if p.expirationDate.Some? && now > p.expirationDate.value then false
    else true
  }

  /** An active status with no dates is active at every instant, and the first and last
      instants of a window are inside it. */
  lemma ActiveBoundaries(p: Policy, now: Instant)
    requires p.status == "active"
    ensures p.effectiveDate == Some(now) && (p.expirationDate.None? || now <= p.expirationDate.value) ==> IsActive(p, now)
    ensures p.expirationDate == Some(now) && (p.effectiveDate.None? || p.effectiveDate.value <= now) ==> IsActive(p, now)
    ensures p.effectiveDate.None? && p.expirationDate.None? ==> IsActive(p, now)
  {
  }

  /** The instants at which a policy is active form an interval. */
  lemma ActiveWindowConvex(p: Policy, t1: Instant, t2: Instant, t3: Instant)
    requires t1 <= t2 <= t3 && IsActive(p, t1) && IsActive(p, t3)
    ensures IsActive(p, t2)
  {
  }

  // ---- weather severity ----

  /** The fields of `WeatherData` that `severity_score` reads. */
  datatype WeatherData = WeatherData(
    windSpeed: Option<real>, windGust: Option<real>, precipitation: Option<real>,
    severeAlert: Option<bool>, lightningStrikes: Option<int>)

  datatype Level = Low | Medium | High | Severe {
    function Name(): string {
      match this
      case Low => "low"
      case Medium => "medium"
      case High => "high"
      case Severe => "severe"
    }

    function Rank(): nat {
      match this
      case Low => 0
      case Medium => 1
      case High => 2
      case Severe => 3
    }
  }

  /** Points for a wind reading: above `high` scores 2, above `medium` scores 1. A missing
      or zero reading is falsy and scores nothing. */
  function WindPoints(x: Option<real>, medium: real, high: real): (n: int)
    requires 0.0 <= medium <= high
    ensures 0 <= n <= 2
    ensures n == 2 <==> x.Some? && x.value > high
    ensures n == 0 <==> x.None? || x.value <= medium
  {
    if x.Some? && x.value != 0.0 && x.value > high then 2
    else if x.Some? && x.value != 0.0 && x.value > medium then 1
    else 0
  }

  /** The integer score `severity_score` accumulates. */
  function SeverityPoints(w: WeatherData): (n: int)
    ensures 0 <= n <= 8
  {
    WindPoints(w.windSpeed, 25.0, 40.0)
    + WindPoints(w.windGust, 45.0, 60.0)
    + (if w.precipitation.Some? && w.precipitation.value > 2.0 then 1 else 0)
    + (if w.severeAlert == Some(true) then 2 else 0)
    + (if w.lightningStrikes.Some? && w.lightningStrikes.value > 10 then 1 else 0)
  }

  /** The tier of a point score. */
  function Tier(points: int): (l: Level)
    ensures l == Severe <==> points >= 5
    ensures l == High <==> 3 <= points < 5
    ensures l == Medium <==> 1 <= points < 3
    ensures l == Low <==> points < 1
  {
    if points >= 5 then Severe
    else if points >= 3 then High
    else if points >= 1 then Medium
    else Low
  }

  /** More points never give a lower tier. */
  lemma TierMonotone(a: int, b: int)
    requires a <= b
    ensures Tier(a).Rank() <= Tier(b).Rank()
  {
  }

  /** `WeatherData.severity_score()`: "severe" from five points on, "high" from three,
      "medium" from one, "low" otherwise. */
  function SeverityScore(w: WeatherData): (l: Level)
    ensures l == Severe <==> SeverityPoints(w) >= 5
    ensures l == Low <==> SeverityPoints(w) < 1
    ensures l == High <==> 3 <= SeverityPoints(w) < 5
  {
    Tier(SeverityPoints(w))
  }

  /** Raising a severe-weather alert adds exactly two points and never lowers the tier. */
  lemma AlertNeverLowersSeverity(w: WeatherData)
    requires w.severeAlert != Some(true)
    ensures SeverityPoints(w.(severeAlert := Some(true))) == SeverityPoints(w) + 2
    ensures SeverityScore(w).Rank() <= SeverityScore(w.(severeAlert := Some(true))).Rank()
  {
    TierMonotone(SeverityPoints(w), SeverityPoints(w) + 2);
  }

  /** Calm weather with no alert is "low"; an alert with sustained wind over 40 and gusts
      over 60 alone is "severe" (six points). */
  lemma SeverityExamples()
    ensures SeverityScore(WeatherData(None, None, None, None, None)) == Low
    ensures SeverityScore(WeatherData(Some(48.0), Some(62.0), None, Some(true), None)) == Severe
  {
  }

  // ---- identifiers ----

  /** `create_claim_id(policy_id, event_id)` at instant `now`; the event id plays no part. */
  function CreateClaimId(policyId: string, eventId: string, now: Instant): (r: string)
    ensures StartsWith(r, "CLM-" + policyId + "-") && EndsWith(r, Stamp(now))
    ensures |r| == 5 + |policyId| + |Stamp(now)|
  {
    "CLM-" + policyId + "-" + Stamp(now)
  }

  /** Two claims for the same policy filed at the same second get the same id, whatever
      outage they are for. */
  lemma ClaimIdIgnoresEvent(policyId: string, e1: string, e2: string, now: Instant)
    ensures CreateClaimId(policyId, e1, now) == CreateClaimId(policyId, e2, now)
  {
  }

  /** `create_payout_id(claim_id)` at instant `now`. */
  function CreatePayoutId(claimId: string, now: Instant): (r: string)
    ensures StartsWith(r, "PAY-" + claimId + "-") && EndsWith(r, Stamp(now))
    ensures |r| == 5 + |claimId| + |Stamp(now)|
  {
    "PAY-" + claimId + "-" + Stamp(now)
  }

  /** The utility code inside an event id: spaces removed, first ten characters, upper case. */
  function UtilityCode(utility: string): (code: string)
    ensures |code| <= 10 && |code| <= |utility|
    ensures forall i :: 0 <= i < |code| ==> code[i] != ' ' && !('a' <= code[i] <= 'z')
  {
    var compact := RemoveSpaces(utility);
    var code := Upper(Take(compact, 10));
    assert forall i :: 0 <= i < |code| ==> code[i] == UpperChar(compact[i]);
    code
  }

  /** `create_event_id(utility, timestamp)`. */
  function CreateEventId(utility: string, timestamp: Instant): (r: string)
    ensures StartsWith(r, "OUT-" + UtilityCode(utility) + "-") && EndsWith(r, Stamp(timestamp))
    ensures |r| == 5 + |UtilityCode(utility)| + |Stamp(timestamp)|
  {
    "OUT-" + UtilityCode(utility) + "-" + Stamp(timestamp)
  }

  /** A utility name of ten or fewer non-space characters is kept whole, in upper case. */
  lemma UtilityCodeShortName(utility: string)
    requires |utility| <= 10 && forall i :: 0 <= i < |utility| ==> utility[i] != ' '
    ensures UtilityCode(utility) == Upper(utility)
  {
    NoSpacesUnchanged(utility);
  }

  lemma {:induction false} NoSpacesUnchanged(s: string)
    requires forall i :: 0 <= i < |s| ==> s[i] != ' '
    ensures RemoveSpaces(s) == s
  {
    if s != [] {
      NoSpacesUnchanged(s[1..]);
    }
  }
}
