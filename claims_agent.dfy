/** The claims validator agent (`foundry/agents/claims_validator_agent.py`): it asks a
    language model to validate a claim and parses the JSON answer, and falls back to its own
    rule-based validation when no model client is configured or the exchange fails. The
    model's reply text, the JSON decoder and Python's `float()` of a string are inputs. */
module ClaimsAgent {
  import opened Wrappers
  import opened Text
  import opened Json
  import opened Clock
  import opened Models
  import opened Config
  import opened Store
  import ThresholdEvaluator

  // ---- rule-based validation ----

  /** The agent's severity tiers: a severe-weather alert, then wind above 40 mph, then wind
      above 25 mph. A present but empty wind speed makes the comparison raise. */
  function RuleBasedSeverity(weather: Option<WeatherRow>): (r: Result<(real, string)>)
    ensures r.Ok? ==> r.value in {(1.0, "medium"), (1.1, "medium"), (1.2, "high"), (1.5, "severe")}
    ensures r.Err? <==> weather.Some? && weather.value.Truthy()
                        && weather.value.severeAlert != Val(true) && weather.value.windSpeed.Null?
  {
    if weather.None? || !weather.value.Truthy() then Ok((1.0, "medium"))
    else if weather.value.severeAlert == Val(true) then Ok((1.5, "severe"))
    else match weather.value.windSpeed
      case Missing => Ok((1.0, "medium"))
      case Null => Err("TypeError: '>' not supported between instances of 'NoneType' and 'int'")
      case Val(w) =>
        if w > 40.0 then Ok((1.2, "high"))
        else if w > 25.0 then Ok((1.1, "medium"))
        else Ok((1.0, "medium"))
  }

  /** `_rule_based_validation(policy, outage, weather)`: a denial at or below the threshold
      and an approval above it, as in the Threshold Evaluator's fallback, but with a fourth
      weather tier and richer evidence. The start time is passed through `str()` before it
      is parsed, so a warehouse timestamp without an offset can be estimated from. */
  function RuleBasedValidation(p: Policy, recorded: Option<int>, start: StartValue,
                               weather: Option<WeatherRow>, now: Instant): (r: Result<Validation>)
    ensures ValidatorDuration(recorded, AsText(start), now).Err? ==> r.Err?
    ensures var d := ValidatorDuration(recorded, AsText(start), now);
      d.Ok? && d.value <= p.thresholdMinutes as real ==>
        r.Ok? && r.value.decision == JStr("deny") && r.value.confidence == 0.95 && r.value.payout == 0.0
        && r.value.reasoning == JStr(DenyReasoning(d.value, p.thresholdMinutes))
        && r.value.evidence == DenyEvidence(d.value, p.thresholdMinutes) && r.value.fraudSignals == JList([])
        && r.value.severity == JStr("low") && r.value.weatherFactor == 1.0
    ensures var d := ValidatorDuration(recorded, AsText(start), now);
      d.Ok? && d.value > p.thresholdMinutes as real ==>
        (r.Err? <==> RuleBasedSeverity(weather).Err?)
        && (r.Ok? ==> r.value.decision == JStr("approve") && r.value.confidence == 0.85
                      && r.value.weatherFactor == RuleBasedSeverity(weather).value.0
                      && r.value.severity == JStr(RuleBasedSeverity(weather).value.1)
                      && r.value.payout == Min(RawPayout(d.value, p.thresholdMinutes, p.hourlyRate, r.value.weatherFactor), p.maxPayout)
                      && r.value.evidence.JList? && |r.value.evidence.items| == 5
                      && r.value.fraudSignals == JList([]))
  {
    match ValidatorDuration(recorded, AsText(start), now)
    case Err(e) => Err(e)
    case Ok(duration) =>
      var threshold := p.thresholdMinutes;
      if duration <= threshold as real then
        Ok(Validation(JStr("deny"), 0.95, 0.0, JStr(DenyReasoning(duration, threshold)),
                      DenyEvidence(duration, threshold), JList([]), JStr("low"), 1.0))
      else
        match RuleBasedSeverity(weather)
        case Err(e) => Err(e)
        case Ok((multiplier, severity)) =>
          var hoursOver := HoursOver(duration, threshold);
          Ok(Validation(JStr("approve"), 0.85, Min(RawPayout(duration, threshold, p.hourlyRate, multiplier), p.maxPayout),
                        JStr(ApproveReasoning(hoursOver, severity, multiplier)),
                        ApproveEvidence(duration, hoursOver, severity, hoursOver * p.hourlyRate, multiplier),
                        JList([]), JStr(severity), multiplier))
  }

  /** The denial's reasoning names the duration, in whole minutes, and the threshold. */
  function DenyReasoning(duration: real, threshold: int): (s: string)
    ensures StartsWith(s, "Outage duration (" + Fixed(duration, 0, false) + " min)")
    ensures EndsWith(s, "policy threshold (" + IntToString(threshold) + " min)")
  {
    var head := "Outage duration (" + Fixed(duration, 0, false) + " min)";
    var tail := "policy threshold (" + IntToString(threshold) + " min)";
    var s := head + " does not exceed " + tail;
    assert s[..|head|] == head;
    assert s[|s| - |tail|..] == tail;
    s
  }

  /** Two evidence items: the duration, in whole minutes, and the policy threshold. */
  function DenyEvidence(duration: real, threshold: int): (j: Json)
    ensures j.JList? && |j.items| == 2
    ensures forall k :: 0 <= k < 2 ==> ItemText(j.items[k], "type") == Some(["duration", "threshold"][k])
    ensures ItemText(j.items[0], "value") == Some(Fixed(duration, 0, false) + " minutes")
    ensures ItemText(j.items[1], "value") == Some(IntToString(threshold) + " minutes")
  {
    Evidence(["duration", "threshold"], [Fixed(duration, 0, false) + " minutes", IntToString(threshold) + " minutes"])
  }

  /** The approval's reasoning names the hours over the threshold, to one decimal, and the
      multiplier, with the weather severity between them. The multiplier is one of 1.0, 1.1, 1.2 and 1.5,
      whose `str()` is its one-decimal rendering. */
  function ApproveReasoning(hoursOver: real, severity: string, multiplier: real): (s: string)
    ensures StartsWith(s, "Threshold exceeded by " + Fixed(hoursOver, 1, false) + " hours.")
    ensures EndsWith(s, "Applied " + Fixed(multiplier, 1, false) + "x multiplier.")
  {
    var head := "Threshold exceeded by " + Fixed(hoursOver, 1, false) + " hours.";
    var mid := "Weather severity: " + severity + ".";
    var tail := "Applied " + Fixed(multiplier, 1, false) + "x multiplier.";
    var s := head + " " + mid + " " + tail;
    assert s[..|head|] == head;
    assert s[|s| - |tail|..] == tail;
    s
  }

  /** Five evidence items: the duration, the hours over the threshold, the weather
      severity, the uncapped base payout and the multiplier. */
  function ApproveEvidence(duration: real, hoursOver: real, severity: string, basePayout: real, multiplier: real): (j: Json)
    ensures j.JList? && |j.items| == 5
    ensures forall k :: 0 <= k < 5 ==>
      ItemText(j.items[k], "type")
      == Some(["duration", "hours_over_threshold", "weather_severity", "base_payout", "severity_multiplier"][k])
    ensures ItemText(j.items[1], "value") == Some(Fixed(hoursOver, 1, false) + " hours")
    ensures ItemText(j.items[2], "value") == Some(severity)
    ensures ItemText(j.items[4], "value") == Some(Fixed(multiplier, 1, false) + "x")
  {
    var kinds := ["duration", "hours_over_threshold", "weather_severity", "base_payout", "severity_multiplier"];
    var values := [Fixed(duration, 0, false) + " minutes", Fixed(hoursOver, 1, false) + " hours", severity,
                   "$" + Fixed(basePayout, 2, false), Fixed(multiplier, 1, false) + "x"];
    var j := Evidence(kinds, values);
    assert values[1] == Fixed(hoursOver, 1, false) + " hours" && values[2] == severity
           && values[4] == Fixed(multiplier, 1, false) + "x";
    j
  }

  /** Above the threshold an approval's reasoning gives the hours over the threshold, the
      severity the weather earned and the multiplier applied. */
  lemma RuleBasedApprovalReasoning(p: Policy, recorded: Option<int>, start: StartValue, weather: Option<WeatherRow>, now: Instant,
                                   duration: real, multiplier: real, severity: string)
    requires ValidatorDuration(recorded, AsText(start), now) == Ok(duration) && duration > p.thresholdMinutes as real
    requires RuleBasedSeverity(weather) == Ok((multiplier, severity))
    ensures var r := RuleBasedValidation(p, recorded, start, weather, now);
      r.Ok? && r.value.decision == JStr("approve")
      && r.value.reasoning == JStr(ApproveReasoning(HoursOver(duration, p.thresholdMinutes), severity, multiplier))
  {
  }

  /** With a recorded duration the agent's rules pay what the policy's payout rule pays at
      the chosen multiplier, and approve exactly when the duration is over the threshold. */
  lemma RuleBasedAgreesWithPolicyRule(p: Policy, d: int, start: StartValue, weather: Option<WeatherRow>, now: Instant)
    requires d != 0
    ensures var r := RuleBasedValidation(p, Some(d), start, weather, now);
      r.Ok? ==> r.value.payout == CalculatePayout(p, d, r.value.weatherFactor)
                && (r.value.decision == JStr("approve") <==> d > p.thresholdMinutes)
  {
  }

  /** Whenever the Threshold Evaluator's fallback succeeds, the agent's rules succeed too,
      with the same decision; they fail on the same inputs when the start is text or the
      duration is recorded (a warehouse timestamp is estimated from only by the agent, which
      passes it through `str()`). The agent's multiplier is never smaller (it adds a 1.1 tier
      for wind between 25 and 40 mph) and so, with a non-negative rate, neither is its
      payout. */
  lemma RuleBasedDominatesFallback(p: Policy, recorded: Option<int>, start: StartValue, weather: Option<WeatherRow>, now: Instant)
    requires p.hourlyRate >= 0.0
    ensures var a := RuleBasedValidation(p, recorded, start, weather, now);
      var f := ThresholdEvaluator.FallbackValidation(p, recorded, start, weather, now);
      (f.Ok? ==> a.Ok?)
      && (start.IsoText? || (recorded.Some? && recorded.value != 0) ==> (a.Ok? <==> f.Ok?))
      && (a.Ok? && f.Ok? ==> a.value.decision == f.value.decision
                             && a.value.weatherFactor >= f.value.weatherFactor
                             && a.value.payout >= f.value.payout)
  {
    var d := ValidatorDuration(recorded, start, now);
    if d.Ok? {
      DominatesWithDuration(p, recorded, start, weather, now, d.value);
    } else {
      DominatesWithoutDuration(p, recorded, start, weather, now);
    }
  }

  /** `RuleBasedDominatesFallback` when the fallback cannot find a duration: it fails, and
      so does the agent unless it could reread a warehouse timestamp as text. */
  lemma DominatesWithoutDuration(p: Policy, recorded: Option<int>, start: StartValue, weather: Option<WeatherRow>,
                                 now: Instant)
    requires ValidatorDuration(recorded, start, now).Err?
    ensures ThresholdEvaluator.FallbackValidation(p, recorded, start, weather, now).Err?
    ensures start.IsoText? ==> RuleBasedValidation(p, recorded, start, weather, now).Err?
    ensures recorded.None? || recorded.value == 0
  {
    assert start.IsoText? ==> AsText(start) == start;
  }

  /** `RuleBasedDominatesFallback` once the fallback has its duration: the agent, reading
      the start through `str()`, finds the same one. */
  lemma DominatesWithDuration(p: Policy, recorded: Option<int>, start: StartValue, weather: Option<WeatherRow>,
                              now: Instant, duration: real)
    requires p.hourlyRate >= 0.0
    requires ValidatorDuration(recorded, start, now) == Ok(duration)
    ensures var a := RuleBasedValidation(p, recorded, start, weather, now);
      var f := ThresholdEvaluator.FallbackValidation(p, recorded, start, weather, now);
      (a.Ok? <==> f.Ok?)
      && (a.Ok? ==> a.value.decision == f.value.decision
                    && a.value.weatherFactor >= f.value.weatherFactor
                    && a.value.payout >= f.value.payout)
  {
    assert ValidatorDuration(recorded, AsText(start), now) == Ok(duration);
    if duration > p.thresholdMinutes as real {
      SeverityDominates(weather);
      var a := RuleBasedValidation(p, recorded, start, weather, now);
      var f := ThresholdEvaluator.FallbackValidation(p, recorded, start, weather, now);
      if a.Ok? && f.Ok? {
        PayoutGrowsWithMultiplier(duration, p.thresholdMinutes, p.hourlyRate, f.value.weatherFactor,
                                  a.value.weatherFactor, p.maxPayout);
      }
    }
  }

  /** The agent's severity tiers fail exactly when the fallback's do and never pick a
      smaller multiplier. */
  lemma SeverityDominates(weather: Option<WeatherRow>)
    ensures var a := RuleBasedSeverity(weather);
      var f := ThresholdEvaluator.WeatherSeverity(weather);
      (a.Ok? <==> f.Ok?) && (a.Ok? ==> a.value.0 >= f.value.0)
  {
  }

  /** Above the threshold, a larger multiplier never lowers the capped payout. */
  lemma PayoutGrowsWithMultiplier(d: real, threshold: int, rate: real, m1: real, m2: real, cap: real)
    requires d > threshold as real && rate >= 0.0 && m1 <= m2
    ensures Min(RawPayout(d, threshold, rate, m1), cap) <= Min(RawPayout(d, threshold, rate, m2), cap)
  {
    var h := (d - threshold as real) / 60.0;
    ProductMonotone(0.0, h, rate);
    ProductMonotone(m1, m2, h * rate);
    assert h * rate * m1 == m1 * (h * rate);
    assert h * rate * m2 == m2 * (h * rate);
  }

  /** 187 minutes over a 120-minute threshold at 500 per hour under a severe-weather alert:
      approved at the 1.5 multiplier, 837.50 with the 50000 cap far away. */
  lemma RuleBasedExample(p: Policy, start: StartValue, now: Instant, w: WeatherRow)
    requires p.thresholdMinutes == 120 && p.hourlyRate == 500.0 && p.maxPayout == 50000.0
    requires w.severeAlert == Val(true)
    ensures var r := RuleBasedValidation(p, Some(187), start, Some(w), now);
      r.Ok? && r.value.decision == JStr("approve") && r.value.payout == 837.5
      && r.value.severity == JStr("severe") && r.value.weatherFactor == 1.5
  {
    assert w.Truthy();
    assert RawPayout(187.0, 120, 500.0, 1.5) == 837.5;
  }

  // ---- the model's answer ----

  /** The fence stripping of `_parse_agent_response`: trim, drop a leading "```json", then a
      leading "```", then a trailing "```", and trim again. */
  function Unfence(text: string): (r: string)
    ensures r == [] || (!IsSpace(r[0]) && !IsSpace(r[|r| - 1]))
  {
    DropFences(Strip(text))
  }

  /** The fence removal, after the first trim. */
  function DropFences(t0: string): (r: string)
    ensures r == [] || (!IsSpace(r[0]) && !IsSpace(r[|r| - 1]))
  {
    var t1 := if StartsWith(t0, "```json") then t0[|"```json"|..] else t0;
    var t2 := if StartsWith(t1, "```") then t1[|"```"|..] else t1;
    var t3 := if EndsWith(t2, "```") then t2[..|t2| - |"```"|] else t2;
    var r := Strip(t3);
    r
  }

  /** A body wrapped in a "```json" fence, with white space around the fence, comes out as
      the trimmed body. */
  lemma UnfenceJsonBlock(pre: string, body: string, post: string)
    requires forall i :: 0 <= i < |pre| ==> IsSpace(pre[i])
    requires forall i :: 0 <= i < |post| ==> IsSpace(post[i])
    requires |body| >= 3 && !StartsWith(body, "```")
    ensures Unfence(pre + "```json" + body + "```" + post) == Strip(body)
  {
    var fenced := "```json" + body + "```";
    assert pre + "```json" + body + "```" + post == pre + fenced + post;
    assert fenced[0] == '`' && fenced[|fenced| - 1] == '`';
    StripPadded(pre, fenced, post);
    DropJsonFence(body);
  }

  lemma DropJsonFence(body: string)
    requires |body| >= 3 && !StartsWith(body, "```")
    ensures DropFences("```json" + body + "```") == Strip(body)
  {
    var fenced := "```json" + body + "```";
    var t1 := body + "```";
    assert fenced[..7] == "```json";
    assert fenced[7..] == t1;
    FenceNotRepeated(body);
    assert t1[|t1| - 3..] == "```";
    assert t1[..|t1| - 3] == body;
  }

  /** Closing a body of three or more characters that does not open with a fence does not
      make it open with one. */
  lemma FenceNotRepeated(body: string)
    requires |body| >= 3 && !StartsWith(body, "```")
    ensures !StartsWith(body + "```", "```")
  {
    assert (body + "```")[..3] == body[..3];
  }

  /** A reply with no fence at all is only trimmed. */
  lemma UnfencePlain(text: string)
    requires !StartsWith(Strip(text), "```") && !EndsWith(Strip(text), "```")
    ensures Unfence(text) == Strip(text)
  {
    var t := Strip(text);
    DropNoFence(t);
    StripTrimmed(t);
  }

  lemma DropNoFence(t: string)
    requires !StartsWith(t, "```") && !EndsWith(t, "```")
    ensures DropFences(t) == Strip(t)
  {
    if StartsWith(t, "```json") {
      assert "```json" == "```" + "json";
      StartsWithPrefix(t, "```", "json");
    }
  }

  /** Python's `float(x)` of a decoded JSON value: numbers and booleans convert, a string
      converts when `parseNumber` accepts it, everything else raises. */
  function ToFloat(x: Json, parseNumber: string -> Option<real>): (r: Result<real>)
    ensures x.JNum? ==> r == Ok(x.r)
    ensures x.JInt? ==> r == Ok(x.i as real)
    ensures x.JNull? || x.JList? || x.JObj? ==> r.Err?
  {
    match x
    case JInt(i) => Ok(i as real)
    case JNum(v) => Ok(v)
    case JBool(b) => Ok(if b then 1.0 else 0.0)
    case JStr(s) =>
      (match parseNumber(s)
       case None => Err("ValueError: could not convert string to float")
       case Some(v) => Ok(v))
    case _ => Err("TypeError: float() argument must be a string or a real number")
  }

  /** `data[key]`. */
  function Field(fields: seq<(string, Json)>, key: string): (r: Result<Json>)
    ensures r.Ok? <==> Lookup(fields, key).Some?
    ensures r.Ok? ==> r.value == Lookup(fields, key).value
  {
    match Lookup(fields, key)
    case None => Err("KeyError: '" + key + "'")
    case Some(v) => Ok(v)
  }

  /** `data.get(key, [])`. */
  function FieldOrEmptyList(fields: seq<(string, Json)>, key: string): Json {
    match Lookup(fields, key)
    case None => JList([])
    case Some(v) => v
  }

  function FloatField(fields: seq<(string, Json)>, key: string, parseNumber: string -> Option<real>): (r: Result<real>)
    ensures r.Ok? ==> Lookup(fields, key).Some? && ToFloat(Lookup(fields, key).value, parseNumber) == r
  {
    match Field(fields, key)
    case Err(e) => Err(e)
    case Ok(v) => ToFloat(v, parseNumber)
  }

  /** The `AIValidationResult` built from a decoded answer, with the keyword arguments
      evaluated in order so the first missing or unconvertible field is the one reported. */
  function ResultFromData(data: Json, parseNumber: string -> Option<real>): (r: Result<Validation>)
    ensures r.Ok? <==>
      data.JObj? && Lookup(data.fields, "decision").Some? && Lookup(data.fields, "reasoning").Some?
      && Lookup(data.fields, "severity_assessment").Some?
      && FloatField(data.fields, "confidence_score", parseNumber).Ok?
      && FloatField(data.fields, "payout_amount", parseNumber).Ok?
      && FloatField(data.fields, "weather_factor", parseNumber).Ok?
    ensures r.Ok? ==>
      r.value.decision == Lookup(data.fields, "decision").value
      && r.value.reasoning == Lookup(data.fields, "reasoning").value
      && r.value.severity == Lookup(data.fields, "severity_assessment").value
      && r.value.evidence == FieldOrEmptyList(data.fields, "evidence")
      && r.value.fraudSignals == FieldOrEmptyList(data.fields, "fraud_signals")
      && r.value.confidence == FloatField(data.fields, "confidence_score", parseNumber).value
      && r.value.payout == FloatField(data.fields, "payout_amount", parseNumber).value
      && r.value.weatherFactor == FloatField(data.fields, "weather_factor", parseNumber).value
  {
    if !data.JObj? then Err("TypeError: data is not a dictionary")
    else
      var f := data.fields;
      match Field(f, "decision")
      case Err(e) => Err(e)
      case Ok(decision) =>
        match FloatField(f, "confidence_score", parseNumber)
        case Err(e) => Err(e)
        case Ok(confidence) =>
          match FloatField(f, "payout_amount", parseNumber)
          case Err(e) => Err(e)
          case Ok(payout) =>
            match Field(f, "reasoning")
            case Err(e) => Err(e)
            case Ok(reasoning) =>
              match Field(f, "severity_assessment")
              case Err(e) => Err(e)
              case Ok(severity) =>
                match FloatField(f, "weather_factor", parseNumber)
                case Err(e) => Err(e)
                case Ok(factor) =>
                  Ok(Validation(decision, confidence, payout, reasoning,
                                FieldOrEmptyList(f, "evidence"), FieldOrEmptyList(f, "fraud_signals"),
                                severity, factor))
  }

  /** `_parse_agent_response(response_text)`: strip the fences, decode, build the result;
      any failure is re-raised. */
  function ParseAgentResponse(text: string, decode: string -> Result<Json>,
                              parseNumber: string -> Option<real>): (r: Result<Validation>)
    ensures decode(Unfence(text)).Err? ==> r.Err?
    ensures decode(Unfence(text)).Ok? ==> r == ResultFromData(decode(Unfence(text)).value, parseNumber)
  {
    match decode(Unfence(text))
    case Err(e) => Err(e)
    case Ok(data) => ResultFromData(data, parseNumber)
  }

  /** A reply that decodes to a result's own `to_dict()` parses back to that result. */
  lemma ParseToDictRoundTrip(v: Validation, text: string, decode: string -> Result<Json>,
                             parseNumber: string -> Option<real>)
    requires decode(Unfence(text)) == Ok(v.ToJson())
    ensures ParseAgentResponse(text, decode, parseNumber) == Ok(v)
  {
    ValidationFields(v);
    var f := v.ToJson().fields;
    assert Field(f, "decision") == Ok(v.decision);
    assert FloatField(f, "confidence_score", parseNumber) == Ok(v.confidence);
    assert FloatField(f, "payout_amount", parseNumber) == Ok(v.payout);
    assert Field(f, "reasoning") == Ok(v.reasoning);
    assert Field(f, "severity_assessment") == Ok(v.severity);
    assert FloatField(f, "weather_factor", parseNumber) == Ok(v.weatherFactor);
    assert FieldOrEmptyList(f, "evidence") == v.evidence;
    assert FieldOrEmptyList(f, "fraud_signals") == v.fraudSignals;
    assert ResultFromData(v.ToJson(), parseNumber) == Ok(v);
  }

  /** An answer without a decision never yields a result. */
  lemma NoDecisionNoResult(text: string, decode: string -> Result<Json>, parseNumber: string -> Option<real>)
    requires decode(Unfence(text)).Ok? && decode(Unfence(text)).value.JObj?
    requires Lookup(decode(Unfence(text)).value.fields, "decision").None?
    ensures ParseAgentResponse(text, decode, parseNumber).Err?
  {
  }

  /** `result.reasoning[:200]` in the progress output: slicing works on a string or a list
      and raises on any other value, which sends the agent to its fallback. */
  predicate Sliceable(j: Json) {
    j.JStr? || j.JList?
  }

  // ---- the agent ----

  /** `ClaimsValidatorAgent`: its configuration, and whether it built a model client. */
  class ClaimsValidatorAgent {
    var endpoint: string
    var apiKey: string
    var hasClient: bool

    /** `__init__()`: a client exists exactly when the OpenAI SDK imported and both the
        endpoint and the key are set. */
    constructor (cfg: Settings, openaiAvailable: bool)
      ensures endpoint == cfg.foundryEndpoint && apiKey == cfg.foundryApiKey
      ensures hasClient == (openaiAvailable && cfg.foundryEndpoint != "" && cfg.foundryApiKey != "")
    {
      endpoint := cfg.foundryEndpoint;
      apiKey := cfg.foundryApiKey;
      hasClient := openaiAvailable && cfg.foundryEndpoint != "" && cfg.foundryApiKey != "";
    }

    /** `validate_claim(policy, outage, weather)`. `reply` is what the chat-completion call
        returned (`Err` when it raised). The model's answer is used only when it parses
        and its reasoning can be sliced; in every other case the rule-based result is
        returned, and only the rule-based validation itself can still fail. */
    function ValidateClaim(reply: Result<string>, decode: string -> Result<Json>,
                           parseNumber: string -> Option<real>, p: Policy, recorded: Option<int>,
                           start: StartValue, weather: Option<WeatherRow>, now: Instant): (r: Result<Validation>)
      reads this
      ensures !hasClient ==> r == RuleBasedValidation(p, recorded, start, weather, now)
      ensures r != RuleBasedValidation(p, recorded, start, weather, now) ==>
        hasClient && reply.Ok? && ParseAgentResponse(reply.value, decode, parseNumber).Ok?
        && r == ParseAgentResponse(reply.value, decode, parseNumber)
        && Sliceable(r.value.reasoning)
      ensures hasClient && reply.Ok? && ParseAgentResponse(reply.value, decode, parseNumber).Ok?
              && Sliceable(ParseAgentResponse(reply.value, decode, parseNumber).value.reasoning) ==>
        r == ParseAgentResponse(reply.value, decode, parseNumber)
      ensures r.Err? ==> RuleBasedValidation(p, recorded, start, weather, now).Err?
    {
      var fallback := RuleBasedValidation(p, recorded, start, weather, now);
      if !hasClient || reply.Err? then fallback
      else
        match ParseAgentResponse(reply.value, decode, parseNumber)
        case Err(_) => fallback
        case Ok(v) => if Sliceable(v.reasoning) then Ok(v) else fallback
    }
  }

  /** The module's `_agent` global. */
  class AgentRegistry {
    var agent: ClaimsValidatorAgent?

    constructor ()
      ensures agent == null
    {
      agent := null;
    }

    /** `get_agent()`: the agent is created on the first call and reused afterwards. */
    method GetAgent(cfg: Settings, openaiAvailable: bool) returns (a: ClaimsValidatorAgent)
      modifies this
      ensures old(agent) != null ==> a == old(agent)
      ensures old(agent) == null ==> fresh(a) && a.hasClient == (openaiAvailable && cfg.foundryEndpoint != "" && cfg.foundryApiKey != "")
      ensures agent == a
    {
      if agent == null {
        agent := new ClaimsValidatorAgent(cfg, openaiAvailable);
      }
      a := agent;
    }

    /** The module function `validate_claim(policy, outage, weather)`: the shared agent's
        validation. */
    method ValidateClaim(cfg: Settings, openaiAvailable: bool, reply: Result<string>,
                         decode: string -> Result<Json>, parseNumber: string -> Option<real>,
                         p: Policy, recorded: Option<int>, start: StartValue,
                         weather: Option<WeatherRow>, now: Instant) returns (r: Result<Validation>)
      modifies this
      ensures agent != null && r == agent.ValidateClaim(reply, decode, parseNumber, p, recorded, start, weather, now)
      ensures old(agent) != null ==> agent == old(agent)
    {
      var a := GetAgent(cfg, openaiAvailable);
      r := a.ValidateClaim(reply, decode, parseNumber, p, recorded, start, weather, now);
    }
  }
}
