/** The Threshold Evaluator function (`functions/ThresholdEvaluator`): on an
    `outage.detected` event it checks every affected policy's threshold, announces the
    policies whose threshold is reached, validates a claim for each of them (through the
    claims agent, or a rule-based fallback when the agent is unavailable), stores the claim
    and announces the decision. */
module ThresholdEvaluator {
  import opened Wrappers
  import opened Text
  import opened Json
  import opened Clock
  import opened Models
  import opened EventGrid
  import opened Store

  // ---- fallback validation ----

  /** The severity multiplier and label of the fallback: a severe-weather alert counts
      first, then a wind speed above 40 mph. A present but empty wind speed makes the
      comparison raise. */
  function WeatherSeverity(weather: Option<WeatherRow>): (r: Result<(real, string)>)
    ensures r.Ok? ==> r.value in {(1.0, "medium"), (1.2, "high"), (1.5, "high")}
    ensures r.Err? <==> weather.Some? && weather.value.Truthy()
                        && weather.value.severeAlert != Val(true) && weather.value.windSpeed.Null?
    ensures weather.Some? && weather.value.Truthy() && weather.value.severeAlert == Val(true) ==> r == Ok((1.5, "high"))
    ensures weather.None? || !weather.value.Truthy() ==> r == Ok((1.0, "medium"))
  {
    if weather.None? || !weather.value.Truthy() then Ok((1.0, "medium"))
    else if weather.value.severeAlert == Val(true) then Ok((1.5, "high"))
    else match weather.value.windSpeed
      case Missing => Ok((1.0, "medium"))
      case Null => Err("TypeError: '>' not supported between instances of 'NoneType' and 'int'")
      case Val(w) => if w > 40.0 then Ok((1.2, "high")) else Ok((1.0, "medium"))
  }

  /** `fallback_validation(policy, outage, weather)`: a denial at or below the threshold, an
      approval paying the hours over the threshold at the hourly rate, scaled by the weather
      multiplier and capped at the policy maximum, above it. Estimating a missing duration
      from the start time, or comparing an empty wind speed, raises. */
  function FallbackValidation(p: Policy, recorded: Option<int>, start: StartValue,
                              weather: Option<WeatherRow>, now: Instant): (r: Result<Validation>)
    ensures ValidatorDuration(recorded, start, now).Err? ==> r.Err?
    ensures var d := ValidatorDuration(recorded, start, now);
      d.Ok? && d.value <= p.thresholdMinutes as real ==>
        r.Ok? && r.value.decision == JStr("deny") && r.value.confidence == 0.95 && r.value.payout == 0.0
        && r.value.reasoning == JStr(DenyReasoning(d.value, p.thresholdMinutes))
        && r.value.evidence == JList([]) && r.value.fraudSignals == JList([])
        && r.value.severity == JStr("low") && r.value.weatherFactor == 1.0
    ensures var d := ValidatorDuration(recorded, start, now);
      d.Ok? && d.value > p.thresholdMinutes as real ==>
        (r.Err? <==> WeatherSeverity(weather).Err?)
        && (r.Ok? ==> r.value.decision == JStr("approve") && r.value.confidence == 0.85
                      && r.value.weatherFactor == WeatherSeverity(weather).value.0
                      && r.value.severity == JStr(WeatherSeverity(weather).value.1)
                      && r.value.payout == Min(RawPayout(d.value, p.thresholdMinutes, p.hourlyRate, r.value.weatherFactor), p.maxPayout)
                      && r.value.evidence == ApproveEvidence(d.value, p.thresholdMinutes, WeatherSeverity(weather).value.1)
                      && r.value.fraudSignals == JList([]))
  {
    match ValidatorDuration(recorded, start, now)
    case Err(e) => Err(e)
    case Ok(duration) =>
      var threshold := p.thresholdMinutes;
      if duration <= threshold as real then
        Ok(Validation(JStr("deny"), 0.95, 0.0, JStr(DenyReasoning(duration, threshold)),
                      JList([]), JList([]), JStr("low"), 1.0))
      else
        match WeatherSeverity(weather)
        case Err(e) => Err(e)
        case Ok((multiplier, severity)) =>
          var hoursOver := HoursOver(duration, threshold);
          Ok(Validation(JStr("approve"), 0.85, Min(RawPayout(duration, threshold, p.hourlyRate, multiplier), p.maxPayout),
                        JStr(ApproveReasoning(hoursOver, severity)),
                        ApproveEvidence(duration, threshold, severity),
                        JList([]), JStr(severity), multiplier))
  }

  /** The denial's reasoning names the duration, in whole minutes, and the threshold. */
  function DenyReasoning(duration: real, threshold: int): (s: string)
    ensures StartsWith(s, "Outage duration (" + Fixed(duration, 0, false) + " min)")
    ensures EndsWith(s, "threshold (" + IntToString(threshold) + " min)")
  {
    var head := "Outage duration (" + Fixed(duration, 0, false) + " min)";
    var tail := "threshold (" + IntToString(threshold) + " min)";
    var s := head + " does not exceed " + tail;
    assert s[..|head|] == head;
    assert s[|s| - |tail|..] == tail;
    s
  }

  /** The approval's reasoning names the hours over the threshold, to one decimal, and the
      weather severity. */
  function ApproveReasoning(hoursOver: real, severity: string): (s: string)
    ensures StartsWith(s, "Threshold exceeded by " + Fixed(hoursOver, 1, false) + " hours.")
    ensures EndsWith(s, "Weather severity: " + severity + ".")
  {
    var head := "Threshold exceeded by " + Fixed(hoursOver, 1, false) + " hours.";
    var tail := "Weather severity: " + severity + ".";
    var s := head + " " + tail;
    assert s[..|head|] == head;
    assert s[|s| - |tail|..] == tail;
    s
  }

  /** Three evidence items: the duration, the threshold and the weather severity. */
  function ApproveEvidence(duration: real, threshold: int, severity: string): (j: Json)
    ensures j.JList? && |j.items| == 3
    ensures j.items[2] == EvidenceItem("weather", severity)
    ensures forall k :: 0 <= k < 3 ==> ItemText(j.items[k], "type") == Some(["duration", "threshold", "weather"][k])
    ensures ItemText(j.items[1], "value") == Some(IntToString(threshold) + " minutes")
    ensures ItemText(j.items[2], "value") == Some(severity)
  {
    Evidence(["duration", "threshold", "weather"],
             [Fixed(duration, 0, false) + " minutes", IntToString(threshold) + " minutes", severity])
  }

  /** Above the threshold an approval's reasoning gives the hours over the threshold and
      the severity the weather earned. */
  lemma FallbackApprovalReasoning(p: Policy, recorded: Option<int>, start: StartValue, weather: Option<WeatherRow>, now: Instant,
                                  duration: real, multiplier: real, severity: string)
    requires ValidatorDuration(recorded, start, now) == Ok(duration) && duration > p.thresholdMinutes as real
    requires WeatherSeverity(weather) == Ok((multiplier, severity))
    ensures var r := FallbackValidation(p, recorded, start, weather, now);
      r.Ok? && r.value.decision == JStr("approve")
      && r.value.reasoning == JStr(ApproveReasoning(HoursOver(duration, p.thresholdMinutes), severity))
  {
  }

  /** With a recorded duration the fallback pays exactly what the policy's own payout rule
      pays at the multiplier it chose, and the decision is an approval exactly when that
      payout rule leaves the zero branch. */
  lemma FallbackAgreesWithPolicyRule(p: Policy, d: int, start: StartValue, weather: Option<WeatherRow>, now: Instant)
    requires d != 0
    ensures var r := FallbackValidation(p, Some(d), start, weather, now);
      r.Ok? ==> r.value.payout == CalculatePayout(p, d, r.value.weatherFactor)
                && (r.value.decision == JStr("approve") <==> d > p.thresholdMinutes)
  {
  }

  /** Without a truthy recorded duration the fallback cannot estimate one from an outage
      read from the warehouse: it raises whatever the weather. */
  lemma FallbackNeedsRecordedDuration(p: Policy, recorded: Option<int>, at: Instant, weather: Option<WeatherRow>, now: Instant)
    requires recorded.None? || recorded.value == 0
    ensures FallbackValidation(p, recorded, WarehouseTime(at), weather, now).Err?
  {
  }

  /** The fallback never pays more than the policy maximum, and pays nothing negative when
      rate and maximum are non-negative. */
  lemma FallbackPayoutBounds(p: Policy, recorded: Option<int>, start: StartValue, weather: Option<WeatherRow>, now: Instant)
    requires p.hourlyRate >= 0.0 && p.maxPayout >= 0.0
    ensures var r := FallbackValidation(p, recorded, start, weather, now);
      r.Ok? ==> 0.0 <= r.value.payout <= p.maxPayout
  {
    var d := ValidatorDuration(recorded, start, now);
    var r := FallbackValidation(p, recorded, start, weather, now);
    if r.Ok? && d.value > p.thresholdMinutes as real {
      RawPayoutNonNegative(d.value, p.thresholdMinutes, p.hourlyRate, r.value.weatherFactor);
    }
  }

  /** `call_foundry_agent(policy, outage, weather)`: the agent's result when the agent
      module can be imported and answers, the fallback's otherwise. */
  function CallFoundryAgent(reply: Result<Validation>, p: Policy, recorded: Option<int>, start: StartValue,
                            weather: Option<WeatherRow>, now: Instant): (r: Result<Validation>)
    ensures reply.Ok? ==> r == reply
    ensures reply.Err? ==> r == FallbackValidation(p, recorded, start, weather, now)
  {
    if reply.Ok? then reply else FallbackValidation(p, recorded, start, weather, now)
  }

  // ---- the claim record ----

  /** The claim status the handler records, as written: an approval only for the decision
      text "approve", a denial for every other value. */
  function ClaimStatusAsWritten(decision: Json): (st: ClaimStatus)
    ensures st == Approved <==> decision == JStr("approve")
    ensures st != Approved ==> st == Denied
  {
    if decision == JStr("approve") then Approved else Denied
  }

  /** The `Claim` the handler builds, as written, for policy `policyId` from validation `v`
      at instant `now`: APPROVED with an approval time only for the decision text "approve";
      a denial time and reason only for the text "deny"; DENIED with neither time for any
      other text. */
  function ClaimForAsWritten(policyId: string, eventId: string, v: Validation, now: Instant): (c: Claim)
    ensures c.claimId == CreateClaimId(policyId, eventId, now)
    ensures c.policyId == policyId && c.outageEventId == eventId
    ensures c.status == ClaimStatusAsWritten(v.decision)
    ensures c.approvedAt.Some? <==> v.decision == JStr("approve")
    ensures c.deniedAt.Some? <==> v.decision == JStr("deny")
    ensures c.denialReason.Some? <==> v.decision == JStr("deny")
    ensures c.payoutAmount == Some(v.payout) && c.aiConfidenceScore == Some(v.confidence)
    ensures c.filedAt == now && c.validatedAt == Some(now)
  {
    var approve := v.decision == JStr("approve");
    var deny := v.decision == JStr("deny");
    Claim(CreateClaimId(policyId, eventId, now), policyId, eventId, ClaimStatusAsWritten(v.decision),
          now, Some(now), if approve then Some(now) else None, if deny then Some(now) else None,
          if deny then Some(v.reasoning) else None, Some(v.payout), Some(v.confidence),
          Some(v.reasoning), Some(v.fraudSignals))
  }

  /** The claims agent is told to answer "approved" or "denied"; the handler as written
      files such an approval as a denial with neither an approval nor a denial time, while
      the corrected rule files it approved. */
  lemma AgentApprovalRecordedAsDenial(policyId: string, eventId: string, v: Validation, now: Instant)
    requires v.decision == JStr("approved")
    ensures ClaimStatusAsWritten(JStr("approved")) == Denied
    ensures var c := ClaimForAsWritten(policyId, eventId, v, now);
      c.status == Denied && c.approvedAt.None? && c.deniedAt.None? && c.denialReason.None?
    ensures var c := ClaimFor(policyId, eventId, v, now);
      c.status == Approved && c.approvedAt == Some(now)
  {
  }

  predicate IsApproval(decision: Json) {
    decision == JStr("approve") || decision == JStr("approved")
  }

  predicate IsDenial(decision: Json) {
    decision == JStr("deny") || decision == JStr("denied")
  }

  /** The claim status the handler evidently means to record: an approval for either
      spelling of an approval, a denial otherwise. */
  function ClaimStatusFor(decision: Json): (st: ClaimStatus)
    ensures st == Approved <==> IsApproval(decision)
    ensures st != Approved ==> st == Denied
    ensures decision == JStr("approve") || decision == JStr("deny") ==> st == ClaimStatusAsWritten(decision)
  {
    if IsApproval(decision) then Approved else Denied
  }

  /** The claim the handler evidently means to build: its status follows either spelling of
      the decision; an approval time only on approval; a denial time and reason only on
      denial. */
  function ClaimFor(policyId: string, eventId: string, v: Validation, now: Instant): (c: Claim)
    ensures c.claimId == CreateClaimId(policyId, eventId, now)
    ensures c.policyId == policyId && c.outageEventId == eventId
    ensures c.status == Approved <==> IsApproval(v.decision)
    ensures c.status == Denied <==> !IsApproval(v.decision)
    ensures c.approvedAt.Some? <==> IsApproval(v.decision)
    ensures c.deniedAt.Some? <==> IsDenial(v.decision)
    ensures c.denialReason.Some? <==> IsDenial(v.decision)
    ensures c.payoutAmount == Some(v.payout) && c.aiConfidenceScore == Some(v.confidence)
    ensures c.filedAt == now && c.validatedAt == Some(now)
  {
    var approve := IsApproval(v.decision);
    var deny := IsDenial(v.decision);
    Claim(CreateClaimId(policyId, eventId, now), policyId, eventId, ClaimStatusFor(v.decision),
          now, Some(now), if approve then Some(now) else None, if deny then Some(now) else None,
          if deny then Some(v.reasoning) else None, Some(v.payout), Some(v.confidence),
          Some(v.reasoning), Some(v.fraudSignals))
  }

  /** The two rules build the same claim for the spellings the fallback produces, "approve"
      and "deny"; they part only on the agent's "approved" and "denied". */
  lemma ClaimForAgreesOnExactText(policyId: string, eventId: string, v: Validation, now: Instant)
    ensures v.decision == JStr("approve") || v.decision == JStr("deny") <==>
            ClaimForAsWritten(policyId, eventId, v, now) == ClaimFor(policyId, eventId, v, now)
                && (IsApproval(v.decision) || IsDenial(v.decision))
  {
  }

  /** A claim is never both approved and denied, under either rule. */
  lemma ClaimNeverApprovedAndDenied(policyId: string, eventId: string, v: Validation, now: Instant)
    ensures var c := ClaimForAsWritten(policyId, eventId, v, now);
      !(c.approvedAt.Some? && c.deniedAt.Some?)
    ensures var c := ClaimFor(policyId, eventId, v, now);
      !(c.approvedAt.Some? && c.deniedAt.Some?)
  {
  }

  // ---- one policy ----

  /** What the loop body does for one policy: nothing, only the threshold event (when the
      validation raised), or the threshold event, the stored claim and its decision event. */
  datatype Step =
    | Skipped
    | Exceeded(thresholdEvent: Event)
    | Claimed(thresholdEvent: Event, claim: Claim, validatedEvent: Event)

  /** What the handler knows once the outage row has been found. */
  datatype Inputs = Inputs(
    eventId: string, outage: OutageRow, policies: seq<Policy>, weather: Option<WeatherRow>,
    replies: string -> Result<Validation>, now: Instant)

  /** The `OutageEvent` attached to the threshold event: location without address, city or
      state; no cause; the dataclass's default data source. */
  function EvaluatedOutage(row: OutageRow, duration: int, st: OutageStatus): (o: OutageEvent)
    ensures o.eventId == row.eventId && o.utilityName == row.utilityName
    ensures o.location.zipCode == row.zipCode && o.location.address.None? && o.location.city.None? && o.location.state.None?
    ensures o.affectedCustomers == row.affectedCustomers && o.outageStart == row.outageStart && o.outageEnd == row.outageEnd
    ensures o.durationMinutes == Some(duration) && o.status == st
    ensures o.cause.None? && o.reportedCause.None? && o.dataSource == "poweroutage.us"
  {
    OutageEvent(row.eventId, row.utilityName, Location(row.latitude, row.longitude, row.zipCode, None, None, None),
                row.affectedCustomers, row.outageStart, row.outageEnd, Some(duration), st,
                None, None, "poweroutage.us", None)
  }

  /** The loop body for `policyId`. Any exception abandons the policy: a missing duration
      fails the comparison, an unknown outage status fails before the threshold event is
      sent, and a failed validation after it. */
  function EvaluatePolicy(inp: Inputs, policyId: string): (s: Step)
    ensures s.Claimed? ==> s.claim.policyId == policyId && s.claim.outageEventId == inp.eventId
    ensures !s.Skipped? ==> SubjectId("policy/", s.thresholdEvent.subject) == Some(policyId)
  {
    match FindPolicy(inp.policies, policyId)
    case None => Skipped
    case Some(p) =>
      match inp.outage.durationMinutes
      case None => Skipped
      case Some(d) =>
        if d < p.thresholdMinutes then Skipped
        else match ParseOutageStatus(inp.outage.status)
          case None => Skipped
          case Some(st) =>
            var te := ThresholdExceededEvent(policyId, EvaluatedOutage(inp.outage, d, st), d, p.thresholdMinutes);
            match CallFoundryAgent(inp.replies(policyId), p, inp.outage.durationMinutes,
                                   WarehouseTime(inp.outage.outageStart), inp.weather, inp.now)
            case Err(_) => Exceeded(te)
            case Ok(v) =>
              var c := ClaimForAsWritten(policyId, inp.eventId, v, inp.now);
              Claimed(te, c, ClaimValidatedEvent(c, v.ToJson()))
  }

  /** A policy is acted on exactly when it exists, the outage has a duration that reaches
      its threshold and the outage status is a known one; it then gets a claim exactly when
      validation succeeds. */
  lemma EvaluatePolicyCases(inp: Inputs, policyId: string)
    ensures var s := EvaluatePolicy(inp, policyId);
      var p := FindPolicy(inp.policies, policyId);
      (!s.Skipped? <==> p.Some? && inp.outage.durationMinutes.Some?
                        && inp.outage.durationMinutes.value >= p.value.thresholdMinutes
                        && ParseOutageStatus(inp.outage.status).Some?)
      && (!s.Skipped? ==>
            (s.Claimed? <==> CallFoundryAgent(inp.replies(policyId), p.value, inp.outage.durationMinutes,
                                               WarehouseTime(inp.outage.outageStart), inp.weather, inp.now).Ok?))
  {
  }

  /** The threshold event of an acted-on policy is built from the recorded duration (at
      least the threshold) and the policy's threshold, so that it reports
      `minutes_over_threshold` as their non-negative difference. */
  lemma ThresholdEventReportsExcess(inp: Inputs, policyId: string)
    requires !EvaluatePolicy(inp, policyId).Skipped?
    ensures FindPolicy(inp.policies, policyId).Some? && inp.outage.durationMinutes.Some?
    ensures ParseOutageStatus(inp.outage.status).Some?
    ensures var p := FindPolicy(inp.policies, policyId).value;
      var d := inp.outage.durationMinutes.value;
      d >= p.thresholdMinutes
      && EvaluatePolicy(inp, policyId).thresholdEvent
         == ThresholdExceededEvent(policyId, EvaluatedOutage(inp.outage, d, ParseOutageStatus(inp.outage.status).value),
                                   d, p.thresholdMinutes)
  {
  }

  /** The gate lets a duration equal to the threshold through (`duration < threshold`
      skips), and the fallback then denies it (`duration <= threshold` denies): the policy
      gets a threshold event and a denied claim paying nothing. */
  lemma DurationAtThresholdIsDenied(inp: Inputs, policyId: string)
    requires FindPolicy(inp.policies, policyId).Some?
    requires inp.outage.durationMinutes == Some(FindPolicy(inp.policies, policyId).value.thresholdMinutes)
    requires inp.outage.durationMinutes.value != 0
    requires ParseOutageStatus(inp.outage.status).Some? && inp.replies(policyId).Err?
    ensures var s := EvaluatePolicy(inp, policyId);
      s.Claimed? && s.claim.status == Denied && s.claim.payoutAmount == Some(0.0)
      && s.claim.deniedAt == Some(inp.now)
      && s.validatedEvent.eventType == ClaimDenied
  {
    var p := FindPolicy(inp.policies, policyId).value;
    var start := WarehouseTime(inp.outage.outageStart);
    var f := FallbackValidation(p, inp.outage.durationMinutes, start, inp.weather, inp.now);
    assert ValidatorDuration(inp.outage.durationMinutes, start, inp.now) == Ok(p.thresholdMinutes as real);
    assert f.Ok? && f.value.decision == JStr("deny") && f.value.payout == 0.0;
    assert CallFoundryAgent(inp.replies(policyId), p, inp.outage.durationMinutes, start, inp.weather, inp.now) == f;
  }

  /** An outage recorded with zero minutes reaches a threshold of zero or less, but when the
      agent fails the fallback has to estimate the duration from the warehouse timestamp
      and raises: the policy gets its threshold event and no claim. */
  lemma ZeroDurationIsAbandoned(inp: Inputs, policyId: string)
    requires FindPolicy(inp.policies, policyId).Some? && FindPolicy(inp.policies, policyId).value.thresholdMinutes <= 0
    requires inp.outage.durationMinutes == Some(0)
    requires ParseOutageStatus(inp.outage.status).Some? && inp.replies(policyId).Err?
    ensures EvaluatePolicy(inp, policyId).Exceeded?
  {
    var p := FindPolicy(inp.policies, policyId).value;
    FallbackNeedsRecordedDuration(p, Some(0), inp.outage.outageStart, inp.weather, inp.now);
    assert CallFoundryAgent(inp.replies(policyId), p, Some(0), WarehouseTime(inp.outage.outageStart),
                            inp.weather, inp.now).Err?;
  }

  // ---- the whole event ----

  /** `main(event)` as a plan: nothing when the event lists no policy or its outage is not
      in the warehouse, otherwise one step per listed policy, in order. The weather is the
      most recent reading for the outage's ZIP code, when it has one. */
  function Plan(eventId: Option<string>, affected: seq<string>, outages: seq<OutageRow>, policies: seq<Policy>,
                recentWeather: string -> seq<WeatherRow>, replies: string -> Result<Validation>,
                now: Instant): (steps: seq<Step>)
    ensures steps == [] || |steps| == |affected|
  {
    if affected == [] || eventId.None? then []
    else match FindOutage(outages, eventId.value)
      case None => []
      case Some(row) =>
        var readings := if row.zipCode != "" then recentWeather(row.zipCode) else [];
        var weather := if readings != [] then Some(readings[0]) else None;
        PlanFor(Inputs(eventId.value, row, policies, weather, replies, now), affected)
  }

  /** One step per listed policy, in order. */
  function PlanFor(inp: Inputs, affected: seq<string>): (steps: seq<Step>)
    ensures |steps| == |affected|
    ensures forall i :: 0 <= i < |affected| ==> steps[i] == EvaluatePolicy(inp, affected[i])
  {
    seq(|affected|, i requires 0 <= i < |affected| => EvaluatePolicy(inp, affected[i]))
  }


  lemma ClaimsOfPrefix(steps: seq<Step>, i: int)
    requires 0 <= i < |steps|
    ensures ClaimsOf(steps[..i + 1]) == ClaimsOf(steps[..i]) + StepClaims(steps[i])
  {
    assert steps[..i + 1][..i] == steps[..i];
  }

  lemma EventsOfPrefix(steps: seq<Step>, i: int, accepts: Event -> bool)
    requires 0 <= i < |steps|
    ensures EventsOf(steps[..i + 1], accepts) == EventsOf(steps[..i], accepts) + StepEvents(steps[i], accepts)
  {
    assert steps[..i + 1][..i] == steps[..i];
  }

  function StepClaims(s: Step): seq<Claim> {
    if s.Claimed? then [StoredClaim(s.claim)] else []
  }

  function StepEvents(s: Step, accepts: Event -> bool): seq<Event> {
    match s
    case Skipped => []
    case Exceeded(te) => Delivered(te, accepts(te))
    case Claimed(te, _, ve) => Delivered(te, accepts(te)) + Delivered(ve, accepts(ve))
  }

  /** The claim rows a sequence of steps inserts. */
  function ClaimsOf(steps: seq<Step>): (r: seq<Claim>)
    ensures |r| <= |steps|
  {
    if steps == [] then [] else ClaimsOf(steps[..|steps| - 1]) + StepClaims(steps[|steps| - 1])
  }

  /** The events a sequence of steps delivers to the topic. */
  function EventsOf(steps: seq<Step>, accepts: Event -> bool): (r: seq<Event>)
    ensures |r| <= 2 * |steps|
  {
    if steps == [] then [] else EventsOf(steps[..|steps| - 1], accepts) + StepEvents(steps[|steps| - 1], accepts)
  }

  /** An event naming no policy, or an outage the warehouse does not know, changes nothing. */
  lemma NothingToEvaluate(eventId: Option<string>, affected: seq<string>, outages: seq<OutageRow>, policies: seq<Policy>,
                          recentWeather: string -> seq<WeatherRow>, replies: string -> Result<Validation>,
                          now: Instant, accepts: Event -> bool)
    requires affected == [] || eventId.None? || FindOutage(outages, eventId.value).None?
    ensures ClaimsOf(Plan(eventId, affected, outages, policies, recentWeather, replies, now)) == []
    ensures EventsOf(Plan(eventId, affected, outages, policies, recentWeather, replies, now), accepts) == []
  {
  }

  /** Every stored claim belongs to a listed policy and to the event's outage, and there is
      at most one per listed policy. */
  lemma {:induction false} ClaimsBelongToListedPolicies(steps: seq<Step>, eventId: string, affected: seq<string>)
    requires |steps| <= |affected|
    requires forall i :: 0 <= i < |steps| && steps[i].Claimed? ==>
      steps[i].claim.policyId == affected[i] && steps[i].claim.outageEventId == eventId
    ensures forall c :: c in ClaimsOf(steps) ==> c.policyId in affected && c.outageEventId == eventId
  {
    if steps != [] {
      var n := |steps| - 1;
      ClaimsBelongToListedPolicies(steps[..n], eventId, affected);
      forall c | c in StepClaims(steps[n])
        ensures c.policyId in affected && c.outageEventId == eventId
      {
        assert c == StoredClaim(steps[n].claim);
      }
    }
  }

  /** The plan's claims are all for listed policies and the event's outage. */
  lemma PlanClaimsBelongToEvent(eventId: Option<string>, affected: seq<string>, outages: seq<OutageRow>, policies: seq<Policy>,
                                recentWeather: string -> seq<WeatherRow>, replies: string -> Result<Validation>, now: Instant)
    ensures var claims := ClaimsOf(Plan(eventId, affected, outages, policies, recentWeather, replies, now));
      |claims| <= |affected|
      && forall c :: c in claims ==> eventId.Some? && c.policyId in affected && c.outageEventId == eventId.value
  {
    var steps := Plan(eventId, affected, outages, policies, recentWeather, replies, now);
    if steps != [] {
      ClaimsBelongToListedPolicies(steps, eventId.value, affected);
    }
  }

  /** The effects of one step, in the order the loop body has them: the threshold event,
      then the claim row, then the decision event. */
  method Apply(step: Step, accepts: Event -> bool, store: Warehouse, grid: EventGridClient)
    modifies store, grid
    ensures store.claims == old(store.claims) + StepClaims(step) && store.payouts == old(store.payouts)
    ensures grid.sent == old(grid.sent) + StepEvents(step, accepts)
  {
    match step {
      case Skipped =>
      case Exceeded(te) =>
        var _ := grid.PublishEvent(te, accepts(te));
      case Claimed(te, c, ve) =>
        var _ := grid.PublishEvent(te, accepts(te));
        store.InsertClaim(c);
        var _ := grid.PublishEvent(ve, accepts(ve));
    }
  }

  /** The handler: reads the outage, then works through the listed policies, storing
      claims in the warehouse and sending events to the topic (`accepts` says which sends
      succeed). */
  method Handle(eventId: Option<string>, affected: seq<string>, outages: seq<OutageRow>, policies: seq<Policy>,
              recentWeather: string -> seq<WeatherRow>, replies: string -> Result<Validation>,
              accepts: Event -> bool, now: Instant, store: Warehouse, grid: EventGridClient)
    modifies store, grid
    ensures store.claims == old(store.claims) + ClaimsOf(Plan(eventId, affected, outages, policies, recentWeather, replies, now))
    ensures store.payouts == old(store.payouts)
    ensures grid.sent == old(grid.sent) + EventsOf(Plan(eventId, affected, outages, policies, recentWeather, replies, now), accepts)
  {
    if affected == [] || eventId.None? {
      return;
    }
    var found := FindOutage(outages, eventId.value);
    if found.None? {
      return;
    }
    var row := found.value;
    var weather: Option<WeatherRow> := None;
    if row.zipCode != "" {
      var readings := recentWeather(row.zipCode);
      if readings != [] {
        weather := Some(readings[0]);
      }
    }
    var inp := Inputs(eventId.value, row, policies, weather, replies, now);
    assert PlanFor(inp, affected) == Plan(eventId, affected, outages, policies, recentWeather, replies, now);
    EvaluateAll(inp, affected, accepts, store, grid);
  }

  /** The loop over the listed policies. */
  method EvaluateAll(inp: Inputs, affected: seq<string>, accepts: Event -> bool, store: Warehouse, grid: EventGridClient)
    modifies store, grid
    ensures store.claims == old(store.claims) + ClaimsOf(PlanFor(inp, affected))
    ensures store.payouts == old(store.payouts)
    ensures grid.sent == old(grid.sent) + EventsOf(PlanFor(inp, affected), accepts)
  {
    ghost var steps := PlanFor(inp, affected);
    var i := 0;
    while i < |affected|
      invariant 0 <= i <= |affected|
      invariant store.claims == old(store.claims) + ClaimsOf(steps[..i])
      invariant store.payouts == old(store.payouts)
      invariant grid.sent == old(grid.sent) + EventsOf(steps[..i], accepts)
    {
      var step := EvaluatePolicy(inp, affected[i]);
      assert step == steps[i];
      ghost var claims0, sent0 := store.claims, grid.sent;
      Apply(step, accepts, store, grid);
      ClaimsOfPrefix(steps, i);
      EventsOfPrefix(steps, i, accepts);
      assert store.claims == old(store.claims) + ClaimsOf(steps[..i + 1]) by {
        assert store.claims == claims0 + StepClaims(step);
        AppendAssoc(old(store.claims), ClaimsOf(steps[..i]), StepClaims(step));
      }
      assert grid.sent == old(grid.sent) + EventsOf(steps[..i + 1], accepts) by {
        assert grid.sent == sent0 + StepEvents(step, accepts);
        AppendAssoc(old(grid.sent), EventsOf(steps[..i], accepts), StepEvents(step, accepts));
      }
      i := i + 1;
    }
    assert steps[..i] == steps;
  }
}
