# Parametric insurance demo — the decision core in Dafny

The parametric insurance demo watches power outages and pays small businesses
automatically when an outage at their address lasts longer than their policy's
threshold. The system has four parts:

- Azure Functions. The Outage Monitor finds active outages and the policies they affect. The Threshold Evaluator
  validates each affected policy and files a claim. The Payout Processor pays approved claims.
- A Fabric notebook that runs the same pipeline end to end on Spark tables.
- An outage simulator, PRESTO.
- Shared models, configuration and an Event Grid client.

This project models the deterministic decisions under that glue. The environment
(warehouse tables, the Event Grid topic, clocks, `uuid4`, `random` draws, the language
model's answer, HTTP outcomes) enters as parameters, and the model states and proves
what the code decides from them:

- the payout rule;
- the three rule-based validators and their weather tiers;
- the claim and payout lifecycles of the handlers;
- the zip-plus-nearby policy merge;
- the notebook's match, group, claim and payout steps;
- the audit-logging publishers;
- the event envelopes;
- configuration validation;
- the simulator's clamps, tables and generators.

One Dafny module models each source file:

| module | models |
|---|---|
| `Models` | `shared/models.py` |
| `Config` | `shared/config.py` |
| `EventGrid` | `shared/eventgrid_client.py` |
| `Store` | the warehouse tables behind `shared/fabric_client.py` |
| `ThresholdEvaluator`, `PayoutProcessor`, `OutageMonitor` | the three Azure Functions |
| `ClaimsAgent` | `archive/v1/foundry/agents/claims_validator_agent.py` |
| `NotebookEvents`, `NotebookClaims` | the unified demo notebook |
| `Presto` | `shared/presto.py` |

Support modules:

- `Wrappers`: `Option`, `Result`.
- `Text`: string helpers and rounding.
- `Json`: dictionary values.
- `Clock`: integer-second instants with their calendar fields and renderings.
- `Sorting`: ordering by a key.

How the code is shaped decides how each part is modelled:

- State that changes in place is a class, with its `modifies` frames:
  - the warehouse tables;
  - the Event Grid topic;
  - the two notebook publishers;
  - the agent registry.
- Loops (grouping, payouts, cause scan, simulator loops, handler loops) are methods with invariants. Each is
  proved equal to a specification function, and the properties are lemmas about that function.
- Pure case analysis is a function with its properties as lemmas.

The documentation describes some things the code does not have:

- a 1.25 severity multiplier in the payout rule;
- a 0.60 confidence threshold that routes claims to review;
- fraud ceilings;
- idempotency keys that stop a claim being paid twice.

The model follows the code:

- there is no confidence gate;
- claims and payouts are inserted without any uniqueness check;
- `PayoutProcessor.PaidClaimIsPaidAgain` shows that a repeated approval is paid again.

## Model

| member | source | states |
|---|---|---|
| Models.ParseOutageStatus | shared/models.py:11-15 | the member returned has the given value, and whenever some member has that value it is the one returned; `None` (Python's `ValueError`) exactly when no member has it |
| Models.ParseClaimStatus | shared/models.py:18-24 | the same for the five claim statuses |
| Models.ParsePayoutStatus | shared/models.py:27-32 | the same for the four payout statuses |
| Models.Location.ToJson | shared/models.py:36-46 | `to_dict()` is an object whose keys are the six dataclass fields in declaration order, `zip_code` holding the zip code |
| Models.Validation.ToJson | shared/models.py:235-247 | `to_dict()` is an object with the eight dataclass keys in order; `decision` and `payout_amount` hold the attributes |
| Models.ValidationFields | shared/models.py:235-247 | each of the eight keys of `to_dict()` holds the attribute of the same name |
| Models.ItemText | functions/ThresholdEvaluator/__init__.py:119-123 | `item[key]` of an evidence entry: when present, the text the dictionary binds to the key |
| Models.EvidenceItemReads | functions/ThresholdEvaluator/__init__.py:120 | an entry `{"type": kind, "value": value}` reads back its kind and its value |
| Models.Evidence | archive/v1/foundry/agents/claims_validator_agent.py:303-309 | an evidence list literal: entry k is typed by the k-th kind and carries the k-th value |
| Models.AsText | archive/v1/foundry/agents/claims_validator_agent.py:253 | `str()` of the start is ISO text of the same instant, without an offset for a warehouse timestamp |
| Models.ElapsedMinutes | functions/ThresholdEvaluator/__init__.py:75-76 | the minutes from the start to `now` exactly when the start is text without a UTC offset; it raises for a warehouse timestamp or an offset |
| Models.ValidatorDuration | functions/ThresholdEvaluator/__init__.py:71-76 | the recorded duration when it is truthy, otherwise the estimate from the start time, which can raise |
| Models.HoursOver | functions/ThresholdEvaluator/__init__.py:94 | the hours over the threshold times sixty is the excess in minutes; positive exactly when the duration exceeds the threshold |
| Models.CalculatePayout | shared/models.py:179-192 | 0.0 at or below the threshold; above it, the smaller of `max_payout` and hours over × rate × multiplier, so never above `max_payout` |
| Models.RawPayoutMonotone | shared/models.py:188-190 | the uncapped payout never decreases as the duration grows, for a non-negative rate and multiplier |
| Models.RawPayoutNonNegative | shared/models.py:188-190 | the uncapped payout is non-negative at or above the threshold |
| Models.CalculatePayoutMonotone | shared/models.py:185-192 | with non-negative rate, multiplier and cap the payout is ≥ 0 and non-decreasing in the duration |
| Models.PayoutExample | archive/v1/tests/test_threshold_evaluator.py:24-32 | 187 minutes over a 120-minute threshold at 500/h pays 33500/60, which is 558.33 to the cent |
| Models.PayoutCapExample | tests/test_payout_processor.py:26-32 | 15000 owed against a 10000 cap pays 10000 |
| Models.IsActive | shared/models.py:164-177 | false whenever the status is not "active"; otherwise false exactly when `now` is before the effective date or after the expiration date (each only when set) |
| Models.ActiveBoundaries | shared/models.py:169-177 | the effective and expiration instants themselves are active; a policy with no dates is active at every instant |
| Models.ActiveWindowConvex | shared/models.py:169-177 | the instants at which a policy is active form an interval |
| Models.WindPoints | shared/models.py:112-121 | a reading scores 2 exactly above the high mark, 0 exactly when missing or at most the medium mark, 1 otherwise |
| Models.SeverityPoints | shared/models.py:108-129 | the accumulated score lies in 0..8 |
| Models.Tier | shared/models.py:131-138 | severe exactly from 5 points, high exactly for 3..4, medium exactly for 1..2, low below 1 |
| Models.SeverityScore | shared/models.py:108-138 | "severe" exactly from five points, "high" exactly for three or four, "low" exactly below one |
| Models.TierMonotone | shared/models.py:131-138 | more points never give a lower tier |
| Models.AlertNeverLowersSeverity | shared/models.py:108-138 | raising the alert adds exactly two points and never lowers the tier |
| Models.SeverityExamples | shared/models.py:108-138 | calm weather without an alert is low; an alert with wind 48 and gusts 62 is severe |
| Models.CreateClaimId | shared/models.py:298-301 | the id is "CLM-" + policy id + "-" followed by the 14-character timestamp |
| Models.ClaimIdIgnoresEvent | shared/models.py:298-301 | the event id plays no part: claims for one policy in one second get equal ids |
| Models.CreatePayoutId | shared/models.py:304-307 | the id is "PAY-" + claim id + "-" followed by the timestamp |
| Models.UtilityCode | shared/models.py:310-314 | the utility code has at most ten characters, none a space or a lower-case ASCII letter (ASCII upper-casing, see Left out) |
| Models.CreateEventId | shared/models.py:310-314 | the id is "OUT-" + utility code + "-" followed by the timestamp |
| Models.UtilityCodeShortName | shared/models.py:310-314 | a name of at most ten characters without spaces is kept whole, upper-cased |
| Config.GetEnv | shared/config.py:44-48 | the environment's value when the name is set, the default otherwise |
| Config.FromEnv | shared/config.py:44-95 | an unset endpoint reads as ""; an unset database reads as "parametric_insurance_warehouse" |
| Config.MissingMessages | shared/config.py:158-176 | at most one message per check, and no message exactly when every checked value is non-empty |
| Config.ValidateConfig | shared/config.py:156-181 | `True` when no message was collected; otherwise the `ValueError` text "Configuration errors: " + the messages joined by ", " |
| Config.ValidIffComplete | shared/config.py:156-181 | the check passes exactly when all six required settings are non-empty |
| Config.AllMissingOrder | shared/config.py:158-176 | with all six missing, six messages in the fixed order of the checks |
| Config.UncheckedSettings | shared/config.py:156-176 | the lakehouse id and the warehouse database never affect the outcome |
| Config.PolicyConstantsOrdered | shared/config.py:135-144 | the severity multipliers are 1.0 ≤ 1.2 ≤ 1.5 ≤ 2.0 from low to severe, and 5 claims a month ≤ 20 a year |
| EventGrid.CreateEvent | shared/eventgrid_client.py:36-51 | the event carries the given type, subject and data, with data version "1.0" |
| EventGrid.SubjectId | shared/eventgrid_client.py:109-111 | an id is read back exactly when the subject starts with the prefix, and prefix + id is the subject |
| EventGrid.SubjectRoundTrip | shared/eventgrid_client.py:109-111 | reading back the id of the subject `prefix + id` gives `id` |
| EventGrid.OutageDetectedData | shared/eventgrid_client.py:112-122 | the payload has the nine keys in the source's order |
| EventGrid.OutageDetectedFields | shared/eventgrid_client.py:112-122 | `affected_policies` is the list passed in, `policy_count` its length, `event_id` the outage's id |
| EventGrid.OutageDetectedEvent | shared/eventgrid_client.py:97-123 | type `outage.detected`, subject "outage/{event_id}" read back as the outage id, data the payload object |
| EventGrid.ThresholdExceededData | shared/eventgrid_client.py:144-153 | the payload has the eight keys in order |
| EventGrid.ThresholdExceededFields | shared/eventgrid_client.py:144-153 | `minutes_over_threshold` is duration − threshold; policy id, duration and threshold pass through |
| EventGrid.ThresholdExceededEvent | shared/eventgrid_client.py:125-154 | type `outage.threshold.exceeded`, subject "policy/{policy_id}", the excess over the threshold |
| EventGrid.ClaimValidatedData | shared/eventgrid_client.py:177-187 | the payload has the nine keys in order |
| EventGrid.ClaimValidatedFields | shared/eventgrid_client.py:177-187 | `status` is the status value and `validation_result` the result passed in |
| EventGrid.ClaimValidatedEvent | shared/eventgrid_client.py:156-188 | `claim.approved` exactly when the status is APPROVED, `claim.denied` for every other status; subject "claim/{claim_id}" |
| EventGrid.ApprovedValue | shared/eventgrid_client.py:168-172 | a status's value is "approved" exactly for APPROVED |
| EventGrid.OutageResolvedData | shared/eventgrid_client.py:205-214 | the payload has the eight keys in order |
| EventGrid.OutageResolvedFields | shared/eventgrid_client.py:205-214 | `claim_count` is the number of claims; `outage_end` is null when absent |
| EventGrid.OutageResolvedEvent | shared/eventgrid_client.py:190-215 | type `outage.resolved`, subject "outage/{event_id}", `outage_end` null exactly when absent |
| EventGrid.PayoutProcessedData | shared/eventgrid_client.py:232-242 | the payload has the nine keys in order |
| EventGrid.PayoutProcessedFields | shared/eventgrid_client.py:232-242 | `completed_at` is null when absent; status and amount pass through |
| EventGrid.PayoutProcessedEvent | shared/eventgrid_client.py:217-243 | type `payout.processed`, subject "payout/{payout_id}", `completed_at` null exactly when absent |
| EventGrid.PayoutEventIgnoresClaim | shared/eventgrid_client.py:217-243 | the claim argument does not affect the event |
| EventGrid.PyStr | shared/eventgrid_client.py:260 | `str` of a string is the string itself |
| EventGrid.BatchItemPolicyId | shared/eventgrid_client.py:260 | `data['policy_id']` succeeds exactly when the item is a dictionary with that key |
| EventGrid.BatchThresholdEvents | shared/eventgrid_client.py:257-264 | the batch builds exactly when every item has a policy id; then one event per item, in order, each of type `outage.threshold.exceeded` carrying the item as data, with a "policy/" subject |
| EventGrid.BatchSubjects | shared/eventgrid_client.py:257-264 | an item whose policy id is a string gets the subject "policy/{policy_id}" |
| EventGrid.EventGridClient.PublishEvents | shared/eventgrid_client.py:78-93 | returns whether the send succeeded, never raises, and the topic receives the events only on success |
| EventGrid.EventGridClient.PublishEvent | shared/eventgrid_client.py:53-76 | the same for a single event |
| EventGrid.EventGridClient.PublishBatchThresholdExceeded | shared/eventgrid_client.py:247-266 | an item without a policy id raises before anything is sent; otherwise the whole batch is delivered on success and nothing on failure |
| ThresholdEvaluator.WeatherSeverity | functions/ThresholdEvaluator/__init__.py:97-107 | one of (1.0, "medium"), (1.2, "high"), (1.5, "high"); 1.5 whenever a severe alert is set; 1.0 with no weather; a TypeError exactly when the alert is not set and the wind speed is present but null |
| ThresholdEvaluator.FallbackValidation | functions/ThresholdEvaluator/__init__.py:62-127 | the duration estimate's exception when it raises; at or below the threshold a "deny" with confidence 0.95, payout 0.0, no evidence, no fraud signals, severity "low" and factor 1.0; above it an "approve" with confidence 0.85, the weather multiplier and label, payout min(hours over × rate × factor, max_payout), three evidence items and no fraud signals, or the comparison's TypeError |
| ThresholdEvaluator.DenyReasoning | functions/ThresholdEvaluator/__init__.py:86 | the denial text names the duration in whole minutes and the threshold |
| ThresholdEvaluator.ApproveReasoning | functions/ThresholdEvaluator/__init__.py:118 | the approval text names the hours over the threshold to one decimal and the weather severity |
| ThresholdEvaluator.ApproveEvidence | functions/ThresholdEvaluator/__init__.py:119-123 | three evidence items typed "duration", "threshold" and "weather", in that order; the threshold item carries the policy threshold in minutes and the weather item the severity |
| ThresholdEvaluator.FallbackApprovalReasoning | functions/ThresholdEvaluator/__init__.py:94-118 | above the threshold the approval's reasoning is the text for the hours over the threshold and the weather severity |
| ThresholdEvaluator.FallbackAgreesWithPolicyRule | functions/ThresholdEvaluator/__init__.py:81-112 | with a recorded duration the fallback pays exactly `Policy.calculate_payout` at its multiplier, and approves exactly above the threshold |
| ThresholdEvaluator.FallbackNeedsRecordedDuration | functions/ThresholdEvaluator/__init__.py:71-76 | with no truthy recorded duration, an outage read from the warehouse makes the fallback raise, whatever the weather |
| ThresholdEvaluator.FallbackPayoutBounds | functions/ThresholdEvaluator/__init__.py:93-112 | the fallback's payout lies between 0 and `max_payout` for a non-negative rate and cap |
| ThresholdEvaluator.CallFoundryAgent | functions/ThresholdEvaluator/__init__.py:24-59 | the agent's result when it answers, the fallback's result on any exception |
| ThresholdEvaluator.ClaimStatusAsWritten | functions/ThresholdEvaluator/__init__.py:241 | APPROVED exactly for the decision text "approve", DENIED for every other value |
| ThresholdEvaluator.AgentApprovalRecordedAsDenial | functions/ThresholdEvaluator/__init__.py:241-246 | the agent's "approved" is filed as written as DENIED with neither an approval nor a denial time nor a reason, and by the corrected rule as APPROVED with an approval time |
| ThresholdEvaluator.ClaimStatusFor | functions/ThresholdEvaluator/__init__.py:241 | APPROVED exactly for either spelling of an approval, DENIED otherwise; agrees with the code as written on "approve" and "deny" |
| ThresholdEvaluator.ClaimForAsWritten | functions/ThresholdEvaluator/__init__.py:237-251 | the claim the handler builds: the id from `create_claim_id`; APPROVED with an approval time exactly for the text "approve"; a denial time and reason exactly for the text "deny"; DENIED otherwise; payout and confidence copied from the validation |
| ThresholdEvaluator.ClaimFor | functions/ThresholdEvaluator/__init__.py:237-251 | the corrected claim: APPROVED with an approval time exactly for "approve" or "approved"; a denial time and reason exactly for "deny" or "denied"; otherwise as the handler's |
| ThresholdEvaluator.ClaimForAgreesOnExactText | functions/ThresholdEvaluator/__init__.py:241-246 | the two rules build the same claim exactly for the texts "approve" and "deny", the ones the fallback returns |
| ThresholdEvaluator.ClaimNeverApprovedAndDenied | functions/ThresholdEvaluator/__init__.py:244-245 | under either rule no claim has both an approval and a denial time |
| ThresholdEvaluator.EvaluatedOutage | functions/ThresholdEvaluator/__init__.py:204-217 | the threshold event's outage keeps the row's id, utility, zip code, customers, start and end, with the checked duration and the parsed status; no address, city, state or cause; data source "poweroutage.us" |
| ThresholdEvaluator.EvaluatePolicy | functions/ThresholdEvaluator/__init__.py:176-267 | a claim, built by the rule as written, is for the policy and the event's outage; a threshold event, when one is sent, has subject "policy/{policy_id}" |
| ThresholdEvaluator.EvaluatePolicyCases | functions/ThresholdEvaluator/__init__.py:179-267 | a policy is acted on exactly when it is found, the duration is present and at least the threshold, and the outage status is known; it then gets a claim exactly when validation succeeds |
| ThresholdEvaluator.ThresholdEventReportsExcess | functions/ThresholdEvaluator/__init__.py:186-220 | the threshold event of an acted-on policy is built from a duration at least the threshold and the policy's threshold |
| ThresholdEvaluator.DurationAtThresholdIsDenied | functions/ThresholdEvaluator/__init__.py:186-194 | a duration equal to the threshold passes the gate, then the fallback denies it: a threshold event, a DENIED claim paying 0.0 with a denial time, and a `claim.denied` event |
| ThresholdEvaluator.ZeroDurationIsAbandoned | functions/ThresholdEvaluator/__init__.py:71-76 | a zero recorded duration reaches a threshold of zero or less, and when the agent fails the fallback raises: the policy gets its threshold event and no claim |
| ThresholdEvaluator.Plan | functions/ThresholdEvaluator/__init__.py:144-176 | no step at all, or exactly one step per listed policy |
| ThresholdEvaluator.PlanFor | functions/ThresholdEvaluator/__init__.py:176-267 | step i is the loop body's outcome for the i-th listed policy |
| ThresholdEvaluator.ClaimsOf | functions/ThresholdEvaluator/__init__.py:254 | at most one stored claim per step |
| ThresholdEvaluator.EventsOf | functions/ThresholdEvaluator/__init__.py:202-261 | at most two delivered events per step |
| ThresholdEvaluator.NothingToEvaluate | functions/ThresholdEvaluator/__init__.py:145-163 | an event with no listed policy, or whose outage is not in the warehouse, stores no claim and sends nothing |
| ThresholdEvaluator.ClaimsBelongToListedPolicies | functions/ThresholdEvaluator/__init__.py:176-254 | every stored claim is for a listed policy and the event's outage |
| ThresholdEvaluator.PlanClaimsBelongToEvent | functions/ThresholdEvaluator/__init__.py:145-254 | at most one claim per listed policy, each for a listed policy and the event's outage |
| ThresholdEvaluator.Apply | functions/ThresholdEvaluator/__init__.py:202-261 | one step's effects in order: the threshold event, the claim row, the decision event; payouts untouched |
| ThresholdEvaluator.Handle | functions/ThresholdEvaluator/__init__.py:130-273 | the warehouse gains exactly the plan's claims and the topic exactly the plan's accepted events; payouts untouched |
| ThresholdEvaluator.EvaluateAll | functions/ThresholdEvaluator/__init__.py:176-267 | the loop over the listed policies stores the claims and sends the events of every step, in order |
| ClaimsAgent.RuleBasedSeverity | archive/v1/foundry/agents/claims_validator_agent.py:279-291 | one of (1.0, "medium"), (1.1, "medium"), (1.2, "high"), (1.5, "severe"); a TypeError exactly when the alert is not set and the wind speed is present but null |
| ClaimsAgent.RuleBasedValidation | archive/v1/foundry/agents/claims_validator_agent.py:240-313 | the duration estimate's exception when it raises; at or below the threshold a "deny" with confidence 0.95, payout 0.0, the two denial evidence items, no fraud signals, severity "low" and factor 1.0; above it an "approve" with confidence 0.85, the tier's factor and label, payout min(hours over × rate × factor, max_payout), five evidence items and no fraud signals, or the comparison's TypeError |
| ClaimsAgent.DenyReasoning | archive/v1/foundry/agents/claims_validator_agent.py:264 | the denial text names the duration in whole minutes and the policy threshold |
| ClaimsAgent.ApproveReasoning | archive/v1/foundry/agents/claims_validator_agent.py:302 | the approval text names the hours over the threshold to one decimal and ends with the applied multiplier |
| ClaimsAgent.RuleBasedApprovalReasoning | archive/v1/foundry/agents/claims_validator_agent.py:275-302 | above the threshold the approval's reasoning is the text for the hours over the threshold, the severity and the multiplier |
| ClaimsAgent.DenyEvidence | archive/v1/foundry/agents/claims_validator_agent.py:265-268 | two items typed "duration" and "threshold", carrying the duration in whole minutes and the policy threshold |
| ClaimsAgent.ApproveEvidence | archive/v1/foundry/agents/claims_validator_agent.py:303-309 | five items typed "duration", "hours_over_threshold", "weather_severity", "base_payout" and "severity_multiplier", in that order; they carry the hours over to one decimal, the severity and the multiplier |
| ClaimsAgent.RuleBasedAgreesWithPolicyRule | archive/v1/foundry/agents/claims_validator_agent.py:259-296 | with a recorded duration the payout is `Policy.calculate_payout` at the chosen multiplier, and the decision is "approve" exactly above the threshold |
| ClaimsAgent.RuleBasedDominatesFallback | archive/v1/foundry/agents/claims_validator_agent.py:250-296 | whenever the Threshold Evaluator's fallback succeeds the agent's rules do too, with the same decision; they fail on the same inputs when the start is text or the duration is recorded; the agent's multiplier and payout are never smaller |
| ClaimsAgent.DominatesWithDuration | archive/v1/foundry/agents/claims_validator_agent.py:250-296 | once the duration is known both rules fail together, and otherwise agree on the decision with the agent's multiplier and payout never smaller |
| ClaimsAgent.DominatesWithoutDuration | archive/v1/foundry/agents/claims_validator_agent.py:250-254 | when the fallback cannot find a duration it fails, no truthy duration was recorded, and the agent fails too on a text start |
| ClaimsAgent.SeverityDominates | archive/v1/foundry/agents/claims_validator_agent.py:279-291 | the agent's tiers fail exactly when the fallback's do and never choose a smaller multiplier |
| ClaimsAgent.PayoutGrowsWithMultiplier | archive/v1/foundry/agents/claims_validator_agent.py:293-296 | above the threshold a larger multiplier never lowers the capped payout |
| ClaimsAgent.RuleBasedExample | archive/v1/foundry/agents/claims_validator_agent.py:352-384 | the module's own sample (187 minutes, threshold 120, 500/h, severe alert) is approved at 1.5, "severe", paying 837.50 |
| ClaimsAgent.Unfence | archive/v1/foundry/agents/claims_validator_agent.py:152-161 | the text handed to the decoder has no white space at either end |
| ClaimsAgent.DropFences | archive/v1/foundry/agents/claims_validator_agent.py:154-161 | the same, after the fences have been dropped |
| ClaimsAgent.UnfenceJsonBlock | archive/v1/foundry/agents/claims_validator_agent.py:152-161 | a body in a "```json … ```" fence, with white space around it, comes out as the trimmed body |
| ClaimsAgent.DropJsonFence | archive/v1/foundry/agents/claims_validator_agent.py:154-159 | dropping the fences of "```json" + body + "```" leaves the trimmed body |
| ClaimsAgent.FenceNotRepeated | archive/v1/foundry/agents/claims_validator_agent.py:156-157 | a body that does not open with a fence does not get its first three characters cut by the second test |
| ClaimsAgent.UnfencePlain | archive/v1/foundry/agents/claims_validator_agent.py:152-161 | text with no fence at either end is only trimmed |
| ClaimsAgent.ToFloat | archive/v1/foundry/agents/claims_validator_agent.py:165-171 | `float()` of a JSON number is that number; of null, a list or a dictionary it raises |
| ClaimsAgent.Field | archive/v1/foundry/agents/claims_validator_agent.py:164-170 | `data[key]` succeeds exactly when the key is present, with its value |
| ClaimsAgent.FloatField | archive/v1/foundry/agents/claims_validator_agent.py:165-171 | success only for a present key, with the `float()` of its value |
| ClaimsAgent.ResultFromData | archive/v1/foundry/agents/claims_validator_agent.py:163-172 | a result exactly when the answer is a dictionary with decision, reasoning and severity and convertible confidence, payout and factor; each field is taken from its key, evidence and fraud signals default to [] |
| ClaimsAgent.ParseAgentResponse | archive/v1/foundry/agents/claims_validator_agent.py:149-177 | a decoding failure is re-raised; otherwise the result built from the decoded answer |
| ClaimsAgent.ParseToDictRoundTrip | archive/v1/foundry/agents/claims_validator_agent.py:163-172 | an answer that decodes to a result's own `to_dict()` parses back to that result |
| ClaimsAgent.NoDecisionNoResult | archive/v1/foundry/agents/claims_validator_agent.py:164 | an answer without a decision never yields a result |
| ClaimsAgent.ClaimsValidatorAgent.constructor | archive/v1/foundry/agents/claims_validator_agent.py:38-53 | a model client exists exactly when the SDK imported and both the endpoint and the key are set |
| ClaimsAgent.ClaimsValidatorAgent.ValidateClaim | archive/v1/foundry/agents/claims_validator_agent.py:179-238 | the parsed answer exactly when there is a client, it answered, the answer parsed and its reasoning can be sliced; the rule-based result in every other case; it fails only when the rule-based validation fails |
| ClaimsAgent.AgentRegistry.constructor | archive/v1/foundry/agents/claims_validator_agent.py:316-317 | no agent exists at first |
| ClaimsAgent.AgentRegistry.GetAgent | archive/v1/foundry/agents/claims_validator_agent.py:320-325 | the agent is created on the first call and the same instance is returned on every later one |
| ClaimsAgent.AgentRegistry.ValidateClaim | archive/v1/foundry/agents/claims_validator_agent.py:328-347 | the shared agent's validation, created on first use and kept afterwards |
| Store.StoredClaim | shared/fabric_client.py:231-258 | the stored row keeps ids, status, payout and filing time; drops the validation, approval and denial columns; keeps the fraud flags exactly when they are set and truthy |
| Store.StoredPayout | shared/fabric_client.py:320-345 | the stored row keeps ids, amount and status; completion time and transaction id are absent |
| Store.SetClaimStatus | shared/fabric_client.py:260-277 | same number of rows; each row with the id gets the new status, every other row is unchanged |
| Store.UpdatePayoutRows | shared/fabric_client.py:347-364 | same number of rows; each row with the id gets the status (and completion time and transaction id when given), every other row is unchanged |
| Store.FindClaim | shared/fabric_client.py:279-295 | a row exactly when some row has the claim id; the row returned is one of the rows and has that id |
| Store.FindOutage | shared/fabric_client.py:129-145 | the same for the outage event id |
| Store.FindPolicy | shared/fabric_client.py:211-227 | the same for the policy id |
| Store.UpdatesTouchOnlyTheirId | shared/fabric_client.py:260-277 | an update leaves every row of another id as it was and gives every row of its id the new status |
| Store.Warehouse.constructor | shared/fabric_client.py:22-36 | the tables start as given |
| Store.Warehouse.InsertClaim | shared/fabric_client.py:231-258 | the claims table gains the stored row at the end; payouts unchanged |
| Store.Warehouse.UpdateClaimStatus | shared/fabric_client.py:260-277 | the claims table becomes `SetClaimStatus` of the old one; payouts unchanged |
| Store.Warehouse.InsertPayout | shared/fabric_client.py:320-345 | the payouts table gains the stored row at the end; claims unchanged |
| Store.Warehouse.UpdatePayout | shared/fabric_client.py:347-364 | the payouts table becomes `UpdatePayoutRows` of the old one; claims unchanged |
| PayoutProcessor.TransactionId | functions/PayoutProcessor/__init__.py:47 | starts with "TXN-", the time stamp and "-", ends with the last four characters of the claim id, and has exactly that length |
| PayoutProcessor.NewPayout | functions/PayoutProcessor/__init__.py:165-173 | id from `create_payout_id`; claim, policy and amount copied; processing, initiated now, not completed, no transaction id |
| PayoutProcessor.Decide | functions/PayoutProcessor/__init__.py:132-236 | a payment is only attempted with all three fields present, a positive amount, and both the claim and the policy found |
| PayoutProcessor.DecideCases | functions/PayoutProcessor/__init__.py:136-182 | a payment is attempted exactly when all three fields are truthy, the amount positive and claim and policy found; it ends paid exactly when the payment system says so; a negative amount with truthy ids needs no payment |
| PayoutProcessor.PaidPayoutMatchesEvent | functions/PayoutProcessor/__init__.py:165-193 | the completed payout carries the event's claim, policy and positive amount, completion now, the `create_payout_id` id and a "TXN-" transaction id ending with the claim id's last four characters |
| PayoutProcessor.PaidClaimIsPaidAgain | functions/PayoutProcessor/__init__.py:151-162 | the decision is the same whether or not the claim is already paid: a repeated approval pays again |
| PayoutProcessor.PaidClaim | functions/PayoutProcessor/__init__.py:212-218 | the event's claim has the stored claim's ids and the paid status |
| PayoutProcessor.Handle | functions/PayoutProcessor/__init__.py:117-240 | the outcome is `Decide`'s; on payment the payout row is inserted then completed, the claim marked paid and one payout event sent; on failure the row is inserted then failed, nothing sent; otherwise nothing changes |
| PayoutProcessor.Pay | functions/PayoutProcessor/__init__.py:175-236 | the processing row is inserted; then completed with the transaction id, claim paid and event sent when paid, or marked failed with nothing sent |
| PayoutProcessor.CompletePayment | functions/PayoutProcessor/__init__.py:182-225 | the payout row completed with time and transaction id, the claim paid, and the payout-processed event for the completed payout delivered |
| PayoutProcessor.CompletedRowState | functions/PayoutProcessor/__init__.py:176-189 | after completion the new last row is completed with the transaction id, amount and claim id, and no other payout id's row changed |
| OutageMonitor.Ids | functions/OutageMonitor/__init__.py:96 | the policy ids of the rows, one per row, in order |
| OutageMonitor.Distinct | functions/OutageMonitor/__init__.py:64 | exactly the elements of the input, each once (the key order of a dictionary filled from it) |
| OutageMonitor.Put | functions/OutageMonitor/__init__.py:64 | a dictionary assignment: an existing key keeps its place and gets the new row, a new key goes last, every other entry unchanged |
| OutageMonitor.Merged | functions/OutageMonitor/__init__.py:64-65 | the dictionary comprehension's values: no policy id twice |
| OutageMonitor.LastWithId | functions/OutageMonitor/__init__.py:64 | the row found is one of the rows and has the id |
| OutageMonitor.MergedIds | functions/OutageMonitor/__init__.py:64-65 | the merged ids are the distinct input ids in order of first occurrence |
| OutageMonitor.MergedKeepsLast | functions/OutageMonitor/__init__.py:64-65 | each merged row is the last input row with its id |
| OutageMonitor.MergeZipAndNearby | functions/OutageMonitor/__init__.py:63-65 | the merge keeps every zip-code and every nearby policy id, lists each id once, keeps the last nearby row where both lists have an id, and adds no row of its own |
| OutageMonitor.PoliciesInZip | shared/fabric_client.py:164-176 | exactly the active policies of the zip code |
| OutageMonitor.AffectedPolicies | functions/OutageMonitor/__init__.py:47-65 | every active zip-code policy is among the affected ids; with a zero coordinate, only the zip-code rows |
| OutageMonitor.OutageFromRow | functions/OutageMonitor/__init__.py:72-93 | the event keeps id, zip code, city, state, duration and data source of the row, with the parsed status and no address |
| OutageMonitor.MonitorOutage | functions/OutageMonitor/__init__.py:45-107 | the loop body sends an event exactly when the zip code has an active policy and the status parses |
| OutageMonitor.MonitorOutageEvent | functions/OutageMonitor/__init__.py:45-110 | an `outage.detected` event exactly when the zip code has an active policy and the status parses; its subject names the outage and its data lists the affected ids and their count |
| OutageMonitor.AnnouncedOnlyWithZipPolicy | functions/OutageMonitor/__init__.py:47-53 | an announced outage has an active policy in its own zip code |
| OutageMonitor.ZipPoliciesAnnounced | functions/OutageMonitor/__init__.py:47-100 | every active policy of the zip code is announced, for a status that parses |
| OutageMonitor.Attempts | functions/OutageMonitor/__init__.py:44 | one attempt per active outage, in order |
| OutageMonitor.SentOf | functions/OutageMonitor/__init__.py:97-106 | no more events delivered than outages |
| OutageMonitor.CountOf | functions/OutageMonitor/__init__.py:42-106 | the counter never exceeds the number of outages |
| OutageMonitor.CountIsDelivered | functions/OutageMonitor/__init__.py:42-106 | the counter equals the number of delivered events, and each delivered event was the event built for one of the outages and accepted |
| OutageMonitor.NoOutagesNothingPublished | functions/OutageMonitor/__init__.py:38-44 | with no active outage nothing is sent and the counter is zero |
| OutageMonitor.Handle | functions/OutageMonitor/__init__.py:19-116 | the counter is `CountOf` and the topic gains exactly `SentOf` of the attempts |
| OutageMonitor.BuildEvent | functions/OutageMonitor/__init__.py:47-100 | the loop body's event is `MonitorOutage`'s |
| NotebookEvents.RStripSlash | fabric/notebooks/parametric_insurance_unified_demo.py:176 | a prefix of the endpoint that does not end in "/", all that was cut being slashes |
| NotebookEvents.RStripSlashIdempotent | fabric/notebooks/parametric_insurance_unified_demo.py:176 | stripping twice gives what stripping once gives |
| NotebookEvents.EventTime | fabric/notebooks/parametric_insurance_unified_demo.py:193 | the clock text followed by "Z" |
| NotebookEvents.Summary | fabric/notebooks/parametric_insurance_unified_demo.py:214 | a prefix of the rendering of at most 500 characters, the whole rendering when it is that short |
| NotebookEvents.Entry | fabric/notebooks/parametric_insurance_unified_demo.py:208-217 | the row carries its sequence number, the id drawn for it, the given status and error, and a summary of at most 500 characters |
| NotebookEvents.NumberedExtend | fabric/notebooks/parametric_insurance_unified_demo.py:194-209 | rows numbered on from the counter keep the log numbered 1, 2, … with the counter at its length |
| NotebookEvents.ParseItem | fabric/notebooks/parametric_insurance_unified_demo.py:251-255 | an item exactly when the event is a dictionary with the keys "event_type", "subject" and "data" |
| NotebookEvents.ParsedBy | fabric/notebooks/parametric_insurance_unified_demo.py:245-256 | the items read, in order, up to the first event that cannot be read |
| NotebookEvents.Parsed | fabric/notebooks/parametric_insurance_unified_demo.py:245-256 | the same for the notebook's key lookups |
| NotebookEvents.BatchAudits | fabric/notebooks/parametric_insurance_unified_demo.py:257-287 | one row per item, numbered on from the start, all with the batch's one outcome |
| NotebookEvents.BatchPayload | fabric/notebooks/parametric_insurance_unified_demo.py:249-256 | one posted element per item, keeping its type, subject, data and data version, with the id drawn for its number |
| NotebookEvents.CounterAfterBatch | fabric/notebooks/parametric_insurance_unified_demo.py:245-248 | raised by the batch's length when every item reads, and by one more than the items read otherwise |
| NotebookEvents.MalformedBatchBreaksNumbering | fabric/notebooks/parametric_insurance_unified_demo.py:245-256 | after a batch with an unreadable item the counter no longer counts the log rows |
| NotebookEvents.EmptyItemSkipsANumber | fabric/notebooks/parametric_insurance_unified_demo.py:245-256 | a batch holding one empty dictionary leaves a fresh client with counter 1 and an empty log |
| NotebookEvents.NotebookEventGridClient.constructor | fabric/notebooks/parametric_insurance_unified_demo.py:175-179 | the endpoint without trailing slashes, the key, an empty log and a zero counter |
| NotebookEvents.NotebookEventGridClient.Url | fabric/notebooks/parametric_insurance_unified_demo.py:221 | the endpoint followed by "/api/events?api-version=2018-01-01" |
| NotebookEvents.NotebookEventGridClient.PublishEvent | fabric/notebooks/parametric_insurance_unified_demo.py:181-239 | true exactly when the POST succeeds; the counter goes up by one; one row is appended either way, "published" or "failed" with the error; the event is delivered only on success; the numbering is kept |
| NotebookEvents.NotebookEventGridClient.PublishBatch | fabric/notebooks/parametric_insurance_unified_demo.py:241-289 | as written: an unreadable item raises with log and topic unchanged but the counter advanced; a readable batch appends one row per item with the one outcome, delivers it all on success, and keeps the numbering exactly then |
| NotebookEvents.NotebookEventGridClient.NumberItems | fabric/notebooks/parametric_insurance_unified_demo.py:245-248 | complete exactly when every item reads; the counter goes up once per item up to and including the first unreadable one |
| NotebookEvents.NotebookEventGridClient.Post | fabric/notebooks/parametric_insurance_unified_demo.py:268-289 | returns the POST's outcome, appends the batch rows, delivers the batch only on success, leaves the counter |
| NotebookEvents.NotebookEventGridClient.PublishBatchChecked | fabric/notebooks/parametric_insurance_unified_demo.py:241-289 | corrected: an unreadable batch raises with nothing changed; otherwise as `PublishBatch`; the numbering always survives |
| NotebookEvents.NotebookEventGridClient.PublishAll | fabric/notebooks/parametric_insurance_unified_demo.py:804-990 | the pipeline's `publish_event` calls one after another: the counter goes up by their number and the log gains exactly their rows; the numbering is kept |
| NotebookEvents.RemoteAudits | fabric/notebooks/parametric_insurance_unified_demo.py:207-237 | one row per call, numbered on from the start, each "published" or "failed" with its own error |
| NotebookEvents.LocalAudits | fabric/notebooks/parametric_insurance_unified_demo.py:300-311 | one "local_only" row per item, numbered on from the start, with no error |
| NotebookEvents.RemoteAuditsOutcome | fabric/notebooks/parametric_insurance_unified_demo.py:207-237 | the rows keep the log numbered, and each row is "published" exactly when it has no error |
| NotebookEvents.LocalEventLogger.constructor | fabric/notebooks/parametric_insurance_unified_demo.py:296-298 | an empty log and a zero counter |
| NotebookEvents.LocalEventLogger.PublishEvent | fabric/notebooks/parametric_insurance_unified_demo.py:300-312 | always true; the counter goes up by one and one "local_only" row with that number is appended |
| NotebookEvents.LocalEventLogger.PublishBatch | fabric/notebooks/parametric_insurance_unified_demo.py:314-317 | the items before the first unreadable one are logged in order, then a KeyError; true when all read; the numbering is kept |
| NotebookEvents.LocalEventLogger.LogAll | fabric/notebooks/parametric_insurance_unified_demo.py:315-316 | one `publish_event` per item: the counter goes up by their number and the log gains their rows |
| NotebookClaims.MatchOf | fabric/notebooks/parametric_insurance_unified_demo.py:761-766 | the selected row keeps the outage and policy ids and the zip code, with the excess equal to duration minus threshold |
| NotebookClaims.MatchesIffPositiveExcess | fabric/notebooks/parametric_insurance_unified_demo.py:766-769 | `Matches`, the join's ON and WHERE: an active policy in the outage's zip code whose selected row has a positive excess over the threshold |
| NotebookClaims.PairsWith | fabric/notebooks/parametric_insurance_unified_demo.py:767-769 | exactly the selections of the outage with each policy it matches |
| NotebookClaims.Joined | fabric/notebooks/parametric_insurance_unified_demo.py:767-769 | the inner join holds the selection of every matching outage and policy pair and nothing else |
| NotebookClaims.Matched | fabric/notebooks/parametric_insurance_unified_demo.py:760-771 | the join's rows, each as often, ordered by duration, longest first |
| NotebookClaims.MatchedExactly | fabric/notebooks/parametric_insurance_unified_demo.py:760-771 | a row is in the result exactly when it selects a matching active policy in the outage's zip with a longer duration; every such row has a positive excess |
| NotebookClaims.MatchedLongestFirst | fabric/notebooks/parametric_insurance_unified_demo.py:770 | an earlier row never has a shorter outage than a later one |
| NotebookClaims.GroupIndex | fabric/notebooks/parametric_insurance_unified_demo.py:786 | the position of the first entry with the outage id, or -1 exactly when no entry has it |
| NotebookClaims.AddMatch | fabric/notebooks/parametric_insurance_unified_demo.py:785-799 | one pass adds at most one entry |
| NotebookClaims.Grouped | fabric/notebooks/parametric_insurance_unified_demo.py:782-799 | no more entries than matches |
| NotebookClaims.PoliciesOf | fabric/notebooks/parametric_insurance_unified_demo.py:799 | at most one policy id per match |
| NotebookClaims.GroupByOutage | fabric/notebooks/parametric_insurance_unified_demo.py:782-799 | the loop's dictionary is `Grouped` of the matches |
| NotebookClaims.GroupedDistinct | fabric/notebooks/parametric_insurance_unified_demo.py:786-787 | no outage id has two entries |
| NotebookClaims.GroupedCovers | fabric/notebooks/parametric_insurance_unified_demo.py:786-798 | every matched outage has an entry |
| NotebookClaims.GroupedCounts | fabric/notebooks/parametric_insurance_unified_demo.py:799 | each entry lists its outage's matched policy ids in match order |
| NotebookClaims.GroupedFromMatches | fabric/notebooks/parametric_insurance_unified_demo.py:787-798 | each entry carries the details of one of its matches |
| NotebookClaims.GroupedIsGroups | fabric/notebooks/parametric_insurance_unified_demo.py:782-799 | the four facts together |
| NotebookClaims.DetectedRequest | fabric/notebooks/parametric_insurance_unified_demo.py:802-808 | an `outage.detected` call with subject "outage/<event id>", the eleven keys in the notebook's order, the policy list and its count |
| NotebookClaims.DetectedRequests | fabric/notebooks/parametric_insurance_unified_demo.py:802 | one call per entry, in insertion order |
| NotebookClaims.DetectedCountsMatches | fabric/notebooks/parametric_insurance_unified_demo.py:802-808 | each event announces a distinct matched outage, and its `policy_count` is its number of matched rows |
| NotebookClaims.PublishDetected | fabric/notebooks/parametric_insurance_unified_demo.py:760-812 | the groups are those of the match result; the log gains exactly the rows of one `publish_event` per group |
| NotebookClaims.WeatherFactor | fabric/notebooks/parametric_insurance_unified_demo.py:828-836 | one of the five (factor, label) pairs, factor between 1.0 and 1.5, "unknown" exactly for missing or empty weather |
| NotebookClaims.WeatherFactorGrowsWithWind | fabric/notebooks/parametric_insurance_unified_demo.py:830-835 | a stronger wind never lowers the factor |
| NotebookClaims.WeatherFactorGrowsWithAlert | fabric/notebooks/parametric_insurance_unified_demo.py:831-834 | setting the alert never lowers the factor and lifts it to at least 1.2 |
| NotebookClaims.CappedPayout | fabric/notebooks/parametric_insurance_unified_demo.py:845-846 | at most the cap, and either the cap or the uncapped amount |
| NotebookClaims.RuleBasedValidation | fabric/notebooks/parametric_insurance_unified_demo.py:838-854 | the decision is "approved" or "denied" |
| NotebookClaims.RuleBasedDenial | fabric/notebooks/parametric_insurance_unified_demo.py:839-843 | at or below the threshold: denied, 0.0, factor 1.0, confidence 0.95, no fraud signal, no evidence |
| NotebookClaims.RuleBasedApproval | fabric/notebooks/parametric_insurance_unified_demo.py:844-854 | above the threshold: the weather factor and label, the capped payout rounded to cents, denied with a fraud signal exactly for planned maintenance, confidence from 0.92 to 0.97, four items of evidence |
| NotebookClaims.RoundedPayoutKeepsCap | fabric/notebooks/parametric_insurance_unified_demo.py:846-850 | rounding moves the payout by at most half a cent, and a cap of whole cents is paid exactly |
| NotebookClaims.Confidence | fabric/notebooks/parametric_insurance_unified_demo.py:848-850 | 0.92 plus 0.03 with weather plus 0.02 above 5000 customers; the 0.99 cap and the rounding never bite |
| NotebookClaims.VerdictAnswer | fabric/notebooks/parametric_insurance_unified_demo.py:850-854 | the dictionary's decision, confidence, payout and reasoning are the verdict's |
| NotebookClaims.ReadAnswer | fabric/notebooks/parametric_insurance_unified_demo.py:876 | an answer exactly for a JSON object, its decision being the object's "decision" |
| NotebookClaims.WeatherFor | fabric/notebooks/parametric_insurance_unified_demo.py:892 | the zip-code row when present and truthy, otherwise the city-state row |
| NotebookClaims.Validate | fabric/notebooks/parametric_insurance_unified_demo.py:856-878 | the rule-based verdict when the model is unavailable or raises, the model's parsed answer otherwise |
| NotebookClaims.ClaimIdOf | fabric/notebooks/parametric_insurance_unified_demo.py:896 | "CLM-" followed by at most eight characters |
| NotebookClaims.ClaimFor | fabric/notebooks/parametric_insurance_unified_demo.py:896-915 | a record exactly when the answer has a string decision, numeric payout and confidence, and reasoning; the status is the decision; ids from the match; approval time exactly when "approved" (10-45 s after filing), denial time and reason exactly when "denied" (10 s); validation 5-30 s after filing |
| NotebookClaims.ClaimRequest | fabric/notebooks/parametric_insurance_unified_demo.py:918-935 | `claim.approved` exactly when the status is "approved", `claim.denied` otherwise, subject "claim/<claim id>" |
| NotebookClaims.FiledBy | fabric/notebooks/parametric_insurance_unified_demo.py:885-937 | as many calls as claims, at most one per row; no error means every row was filed |
| NotebookClaims.FiledByRow | fabric/notebooks/parametric_insurance_unified_demo.py:885-937 | the j-th claim and call filed are what the step gave for the j-th row |
| NotebookClaims.FiledByStops | fabric/notebooks/parametric_insurance_unified_demo.py:885-937 | on error, the row after the last one filed is the first that raised |
| NotebookClaims.FileRow | fabric/notebooks/parametric_insurance_unified_demo.py:885-935 | a row, when filed, gives a claim for the row's policy and outage |
| NotebookClaims.FileClaimsRow | fabric/notebooks/parametric_insurance_unified_demo.py:885-937 | `FileClaims`, the loop over the matches: the j-th claim and call are those of the j-th match, filed with the j-th draws |
| NotebookClaims.FileRowRuleBased | fabric/notebooks/parametric_insurance_unified_demo.py:885-935 | without the model a row is always filed under the rule-based decision, for the row's policy, announced as an approval exactly when approved |
| NotebookClaims.RuleBasedFilesEveryMatch | fabric/notebooks/parametric_insurance_unified_demo.py:880-944 | without the model every match is filed, approved or denied, in order, the status deciding the event |
| NotebookClaims.UnknownDecisionAnnouncedAsDenial | fabric/notebooks/parametric_insurance_unified_demo.py:900-918 | a decision "approve" is filed under that status with neither approval nor denial time, and announced as `claim.denied` |
| NotebookClaims.FileAndPublish | fabric/notebooks/parametric_insurance_unified_demo.py:880-944 | the claims are those filed when no row raised, an error otherwise; the log gains exactly the rows of the filed rows' events |
| NotebookClaims.Approved | fabric/notebooks/parametric_insurance_unified_demo.py:958 | exactly the records whose status is "approved" |
| NotebookClaims.PayoutFor | fabric/notebooks/parametric_insurance_unified_demo.py:965-977 | claim, policy and amount of the claim; "PAY-" and "TXN-" ids; completed by ACH, 2-15 s after initiation |
| NotebookClaims.PaidBy | fabric/notebooks/parametric_insurance_unified_demo.py:964-978 | one payout per claim |
| NotebookClaims.PayWith | fabric/notebooks/parametric_insurance_unified_demo.py:964-977 | the k-th payout is made with the k-th draws |
| NotebookClaims.ProcessPayouts | fabric/notebooks/parametric_insurance_unified_demo.py:961-979 | the payouts of the approved claims in order, and the sum of their amounts |
| NotebookClaims.PaidByMatchesClaims | fabric/notebooks/parametric_insurance_unified_demo.py:964-979 | every claim gets the payout its position makes, and the payouts add up to the claims' total |
| NotebookClaims.PayoutsMatchApproved | fabric/notebooks/parametric_insurance_unified_demo.py:958-979 | every approved claim gets one payout of its own amount with "PAY-" and "TXN-" ids, and total_payout is the payouts' sum |
| NotebookClaims.PayoutRequest | fabric/notebooks/parametric_insurance_unified_demo.py:984-998 | a `payout.processed` call with subject "payout/<payout id>" |
| NotebookClaims.PayoutRequests | fabric/notebooks/parametric_insurance_unified_demo.py:984 | one call per payout, in order |
| NotebookClaims.PayAndPublish | fabric/notebooks/parametric_insurance_unified_demo.py:958-1004 | the payouts and total of the approved claims; the log gains exactly the rows of one event per payout |
| Presto.RandInt | shared/presto.py:293-296 | a value within the inclusive bounds, the draw itself when the draw lies within them |
| Presto.Trunc | shared/presto.py:306 | `int(x)` truncates toward zero: the largest integer not above a non-negative x, the smallest not below a negative one |
| Presto.Clamp | shared/presto.py:311-314 | the value within the bounds, unchanged when already inside them |
| Presto.DefaultConfigWellFormed | shared/presto.py:20-30 | the default duration and customer ranges are not empty |
| Presto.IsPeakHour | shared/presto.py:375-378 | `_is_peak_hour`: the hour lies in the inclusive window exactly when the time of day runs from the first peak hour's start to the last one's end |
| Presto.PeakHourWindow | shared/presto.py:375-378 | with the default (16, 20) window an instant is at peak exactly when its time of day lies in [16:00, 21:00) |
| Presto.SeasonalFactor | shared/presto.py:380-387 | the seasonal variance in June, July, August, December, January and February, 1.0 in the other months |
| Presto.SeverityOf | shared/presto.py:139 | any other severity name is kept as it is |
| Presto.SeverityNameOf | shared/presto.py:139 | reading a severity name and printing it back gives the same string |
| Presto.DurationMultiplier | shared/presto.py:298-305 | one of 0.5, 1.0, 1.5, 2.0; 1.0 for an unknown name |
| Presto.CustomerMultiplier | shared/presto.py:333-339 | one of 0.3, 0.7, 1.0, 1.2, 2.0; 1.0 for an unknown name |
| Presto.MultipliersOrdered | shared/presto.py:298-339 | normal < moderate < severe < extreme for both multipliers |
| Presto.Duration | shared/presto.py:291-314 | always within the configured minimum and maximum duration |
| Presto.AffectedCustomers | shared/presto.py:316-349 | always within the configured minimum and maximum customer count |
| Presto.ModerateDurationIsBase | shared/presto.py:293-314 | a moderate outage with a noise factor of 1 lasts exactly the drawn base |
| Presto.CauseTable | shared/presto.py:353-363 | the weather table for severe and extreme weather, the standard table otherwise |
| Presto.PickCause | shared/presto.py:366-373 | the cumulative-weight scan returns `ChosenCause` of the table and draw |
| Presto.SelectCause | shared/presto.py:351-373 | `_select_cause` returns `ChosenCause` of the severity's table |
| Presto.ChosenFromFirstReaching | shared/presto.py:367-371 | the scan stops at the first cause whose running total reaches the draw |
| Presto.WeightsSumToOne | shared/presto.py:123-133 | both weight tables add up to 1.0 (the standard one on exact reals) |
| Presto.ChosenIsListed | shared/presto.py:367-373 | with a draw not above the total, the scan returns one of the table's causes, never its fallback |
| Presto.SelectedCauseIsListed | shared/presto.py:351-373 | a draw of `random()` always selects a listed cause |
| Presto.LowDrawIsStormDamage | shared/presto.py:353-371 | draws up to 0.35 (or up to 0.60 in severe or extreme weather) pick "storm_damage" |
| Presto.UtilitiesIn | shared/presto.py:157 | never empty when every region's list is non-empty |
| Presto.UtilitiesInCases | shared/presto.py:157 | the first entry of the region, or ["Local Utility"] when the region is absent |
| Presto.Choice | shared/presto.py:154 | an element of the list, the drawn position's one when in range |
| Presto.CitiesIn | shared/presto.py:272 | exactly the cities of the region, in order |
| Presto.CitiesInNonEmpty | shared/presto.py:272-273 | a region with a city has a non-empty list to choose from |
| Presto.DefaultSimulatorValid | shared/presto.py:39-133 | the default object has non-empty ranges, cities and utility lists, and every utility region has a city |
| Presto.EventId | shared/presto.py:178 | "PRESTO-", the state, "-", the start's time stamp, "-"; for an id number from 1000 to 9999 exactly four digits follow, spelling that number |
| Presto.SimulationParams | shared/presto.py:197-201 | the severity, the peak-hour flag within the configured hours and the seasonal factor of the start |
| Presto.GenerateOutage | shared/presto.py:135-202 | the given or a listed city; the given time or now; end = start + duration; duration and customers within the configured ranges; the city's zip, coordinates and name; a utility of its region; resolved, from PRESTO, cause reported as is |
| Presto.ScenarioFor | shared/presto.py:222-255 | a non-empty count range and a non-negative time spread |
| Presto.UnknownScenarioIsNormalDay | shared/presto.py:255 | an unknown scenario type gets the "normal_day" entry |
| Presto.ScenarioRegion | shared/presto.py:271 | the chosen region has a city |
| Presto.ScenarioLocation | shared/presto.py:262-273 | a listed city: one city for all when clustered, a city of the chosen region when regional |
| Presto.ScenarioOutage | shared/presto.py:276-285 | at the scenario's location and weather, starting within the time spread of the base time |
| Presto.ScenarioGen | shared/presto.py:276-287 | the i-th call makes the scenario's i-th outage |
| Presto.Series | shared/presto.py:276-287 | n outages |
| Presto.SeriesAt | shared/presto.py:276-287 | the i-th element is the i-th generated outage |
| Presto.AppendGenerated | shared/presto.py:276-287 | the loop appends exactly the series |
| Presto.ScenarioLoop | shared/presto.py:276-289 | the loop's list is the series of the scenario's outages |
| Presto.GenerateScenario | shared/presto.py:204-289 | the list is the series of the chosen scenario, of the drawn count |
| Presto.ScenarioProperties | shared/presto.py:255-289 | the count lies within the scenario's bounds; each outage has its weather, a listed city, and a start within the spread |
| Presto.ScenarioSpread | shared/presto.py:263-273 | clustered scenarios share one city, regional ones one region |
| Presto.WeatherChoice | shared/presto.py:422-425 | one of the four severities; normal exactly below 0.70, extreme exactly from 0.98 |
| Presto.DayCount | shared/presto.py:409 | at least one outage a day, the drawn number when it is at least one |
| Presto.WindowStart | shared/presto.py:405 | the simulated window ends at now |
| Presto.SlotOutage | shared/presto.py:411-430 | starts on its own day, in a listed city, resolved |
| Presto.Slots | shared/presto.py:411-430 | call (day, j) makes the j-th outage of that day |
| Presto.DaySlots | shared/presto.py:411 | the day's generator |
| Presto.SimulateDays | shared/presto.py:404-432 | the day loop's list is `Generated` |
| Presto.GenerateContinuous | shared/presto.py:389-437 | the generated outages sorted by start time |
| Presto.SlotsAreOnTheirDays | shared/presto.py:413-419 | every slot starts inside its own day |
| Presto.SeriesWithin | shared/presto.py:411-432 | a day's outages all lie in that day |
| Presto.GeneratedProperties | shared/presto.py:404-432 | every simulated day has an outage starting on it, there are at least as many outages as days, and each lies inside the simulated window |
| Presto.ContinuousProperties | shared/presto.py:389-437 | the result is ordered by start time, every simulated day has an outage starting on it, and every outage lies in the window ending now |
| Presto.SortKeepsDays | shared/presto.py:437 | sorting by start time keeps an outage on every day that had one |
| Sorting.Insert | shared/presto.py:435 | one more element, the multiset gaining exactly it |
| Sorting.InsertSorted | shared/presto.py:435 | inserting into an ordered list keeps it ordered |
| Sorting.SortBy | shared/presto.py:435 | ordered by the key, a permutation of the input |
| Sorting.SortByKeepsElements | shared/presto.py:435 | an element is in the sorted list exactly when it is in the input |
| Sorting.SortBySorted | shared/presto.py:435 | an already ordered list is left as it is |
| Sorting.InsertLast | shared/presto.py:435 | an element with the largest key goes last |
| Text.Strip | archive/v1/foundry/agents/claims_validator_agent.py:153 | a slice of the text with no whitespace at either end |
| Text.RemoveSpaces | shared/models.py:313 | the text with every space removed and every other character kept as often |
| Text.Upper | shared/models.py:313 | the same length, each lower-case ASCII letter upper-cased and every other character kept (ASCII only, see Left out) |
| Text.Take | shared/models.py:313 | `s[:n]`: a prefix of length n, or the whole text when shorter |
| Text.Last | functions/PayoutProcessor/__init__.py:47 | `s[-n:]`: a suffix of length n, or the whole text when shorter |
| Text.Round2 | fabric/notebooks/parametric_insurance_unified_demo.py:850 | `round(x, 2)`: within half a cent of x, and x itself when x is a whole number of cents |
| Text.Round4 | fabric/notebooks/parametric_insurance_unified_demo.py:850 | `round(x, 4)`: within half of 0.0001 of x |
| Clock.ToCivil | shared/models.py:300 | a month from 1 to 12, a day from 1 to 31, and the hour, minute and second of the instant's time of day |
| Clock.CivilFromDays | shared/models.py:300 | the calendar date of a day count has a month from 1 to 12 and a day from 1 to 31 |
| Clock.YearOfEraBounds | shared/models.py:300 | within a 400-year cycle the year found for a day leaves 0 to 365 days of that year before it |
| Clock.EraDaySplit | shared/models.py:300 | a day of the cycle splits into a century, a four-year block and a day of that block, which fix the divisions the conversion takes |
| Clock.YearFromSplit | shared/models.py:300 | from that split, the year of the cycle and the day of that year |
| Clock.Month | shared/presto.py:382 | `timestamp.month`, from 1 to 12 |
| Clock.Hour | shared/presto.py:377 | the hour of the day, the one whose hour-long span holds the instant |
| Clock.StampShape | shared/models.py:300 | `strftime("%Y%m%d%H%M%S")` of any instant in a four-digit year gives fourteen digits |
| Json.Lookup | functions/PayoutProcessor/__init__.py:132-134 | `dict.get`: absent exactly when no entry has the key, otherwise a value stored under it |
| Json.Zip | fabric/notebooks/parametric_insurance_unified_demo.py:787-798 | one entry per key, in order |

## Left out

- I/O is not modelled: SQL connections, tokens and query text (`shared/fabric_client.py`), Spark reads and writes, `display`, HTTP, the Event Grid SDK send. A query's result is a sequence of rows, and each send's outcome is a parameter.
- `get_policies_near_location` is not modelled: its Haversine distance is float trigonometry inside SQL text. It is the parameter `nearby`.
- Floating point is not modelled. Money and factors are exact reals. `round` is round-half-even on exact values, so binary representation effects are absent.
- `random.randint` is not modelled as a distribution. `Presto.RandInt` is the draw clamped into the range. `random.choice` takes the drawn index, or the last element when the index is out of range.
- The `lognormvariate`, `gauss` and `random()` draws are real-number parameters.
- `uuid4` is not modelled: its hex digits are string parameters. `utcnow()` is an integer-second `Instant`, so microseconds are not modelled.
- The language model's prompt is not modelled. The call or parse comes in as a parsed reply, or as an exception that selects the rule-based fallback.
- `send_notification` and `process_payment` are not modelled. Both always succeed in the source, and a notification failure only logs. The payment outcome is a boolean parameter, and notifications are omitted.
- The notebook's NOAA fetch, weather-lookup construction, Spark DDL and embedded PRESTO copy are not modelled. The weather lookup is the parameter `lookup`.
- Logging and `print` output are not modelled.
- The order of `ORDER BY o.duration_minutes DESC` among equal durations is not modelled: Spark does not fix it. `NotebookClaims.Matched` keeps the join order for ties.
- Columns that no decision reads are not modelled: `business_type` and `outage_end` in the notebook match.
- `OutageMonitor.Handle` models per-outage exceptions only as a status that `OutageStatus` cannot parse. Rows are typed records, so a missing key cannot occur.
- `NotebookClaims.PublishDetected`, `FileAndPublish` and `PayAndPublish` are proved with `NotebookEventGridClient` only. With Event Grid disabled the notebook hands the same calls to `LocalEventLogger`. The logger's rows are modelled by `NotebookEvents.LocalAudits`, but the three steps are not restated for it.
- `Store.Warehouse` keeps only the claims and payouts tables. Outage, policy and weather rows are handler inputs.
- `PayoutProcessor.Handle` assumes that every warehouse write succeeds. In the source, `insert_payout` and `update_*` return False on error and the handler ignores it.
- `ClaimsAgent.AgentRegistry.GetAgent` does not model the module-level global, which is a class field. There is no concurrency.
- `Presto.GenerateContinuous` does not model the stability of Python's sort: `Sorting.SortBy` is stable, and the model proves sortedness and permutation.
- Text.Upper: upper-cases ASCII letters only. Python's `str.upper()` is Unicode and can lengthen a string ("ß" becomes "SS").
- Models.UtilityCode: the upper-casing is ASCII only, as in `Text.Upper`. With Unicode `upper()` after the `[:10]` slice, the code can be longer than ten characters; the model does not show that.
- Successive clock reads are taken as equal. `ThresholdEvaluator.ClaimForAsWritten` uses one `now` for `filed_at`, `validated_at` and the approval or denial time, where the source calls `utcnow()` for each. The notebook publishers stamp every event of a run with one clock string.
- The outage start reaches a validator as `StartValue`: a warehouse timestamp (taken to have no UTC offset) or ISO text. Other timestamp types and unparsable text are not modelled.

## Findings

| source | as written | input that shows it | evidently intended | confidence | as-written member | corrected member |
|---|---|---|---|---|---|---|
| functions/ThresholdEvaluator/__init__.py:241-246 | the claim is APPROVED only when the decision text is "approve"; `approved_at`, `denied_at` and `denial_reason` test "approve" and "deny" | the Foundry agent answers `"decision": "approved"`, the spelling its prompt asks for (archive/v1/foundry/agents/claims_validator_agent.py:130) | either spelling of an approval files an APPROVED claim with an approval time | high, not executed | ThresholdEvaluator.ClaimForAsWritten (used by the handler), ThresholdEvaluator.AgentApprovalRecordedAsDenial | ThresholdEvaluator.ClaimFor, ThresholdEvaluator.ClaimForAgreesOnExactText |
| fabric/notebooks/parametric_insurance_unified_demo.py:245-256 | `publish_batch` raises `_event_counter` for an item before reading its keys, so an item without "event_type" consumes a sequence number while no audit row is kept | `publish_batch([{}])` on a fresh client leaves counter 1 and an empty log; the next row is numbered 2 | a malformed batch changes nothing, and the audit sequence stays gap-free | medium, not executed | NotebookEvents.NotebookEventGridClient.PublishBatch, NotebookEvents.MalformedBatchBreaksNumbering, NotebookEvents.EmptyItemSkipsANumber | NotebookEvents.NotebookEventGridClient.PublishBatchChecked |
