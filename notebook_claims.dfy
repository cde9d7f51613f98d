/** Steps 5 to 7 of the unified demo notebook: outages are matched to the policies they
    trigger, the matches are grouped into one `outage.detected` event per outage, every
    match is validated and filed as a claim with a `claim.approved` or `claim.denied`
    event, and every approved claim is paid with a `payout.processed` event. The Spark
    tables are sequences of rows; the `uuid4()` hex draws, the clock, the `randint` draws,
    the language model's parsed answer and `json.dumps` are parameters. */
module NotebookClaims {
  import opened Wrappers
  import opened Text
  import opened Json
  import opened Clock
  import opened Models
  import opened Store
  import opened EventGrid
  import opened Sorting
  import opened NotebookEvents
  import Presto

  // ---- the tables ----

  /** A row of the `outage_events` table, with the columns the match reads. A `NULL`
      duration is `None`. */
  datatype OutageRow = OutageRow(
    eventId: string, utilityName: string, city: string, state: string, zipCode: string,
    affectedCustomers: int, outageStart: string, durationMinutes: Option<int>,
    reportedCause: Option<string>)

  /** A row of the `policies` table, with the columns the match reads. */
  datatype PolicyRow = PolicyRow(
    policyId: string, businessName: string, zipCode: string, thresholdMinutes: int,
    hourlyRate: real, maxPayout: real, status: string)

  /** A row of the match query's result. */
  datatype MatchRow = MatchRow(
    eventId: string, utilityName: string, outageCity: string, outageState: string, zipCode: string,
    affectedCustomers: int, outageStart: string, durationMinutes: int, reportedCause: Option<string>,
    policyId: string, businessName: string, thresholdMinutes: int, hourlyRate: real,
    maxPayout: real, excessMinutes: int)

  // ---- step 5: the match query ----

  /** The query's `ON` and `WHERE` conditions: an active policy in the outage's zip code,
      and a duration above the policy's threshold (a `NULL` duration compares false). */
  predicate Matches(o: OutageRow, p: PolicyRow) {
    p.status == "active" && o.zipCode == p.zipCode
    && o.durationMinutes.Some? && o.durationMinutes.value > p.thresholdMinutes
  }

  /** The selected columns of a matching pair. */
  function MatchOf(o: OutageRow, p: PolicyRow): (m: MatchRow)
    requires o.durationMinutes.Some?
    ensures m.eventId == o.eventId && m.policyId == p.policyId && m.zipCode == o.zipCode
    ensures m.excessMinutes == m.durationMinutes - m.thresholdMinutes
  {
    var d := o.durationMinutes.value;
    MatchRow(o.eventId, o.utilityName, o.city, o.state, o.zipCode, o.affectedCustomers, o.outageStart,
             d, o.reportedCause, p.policyId, p.businessName, p.thresholdMinutes, p.hourlyRate,
             p.maxPayout, d - p.thresholdMinutes)
  }

  /** A pair matches exactly when the policy is active and in the outage's zip code and the
      selected row's excess over the threshold is positive. */
  lemma MatchesIffPositiveExcess(o: OutageRow, p: PolicyRow)
    ensures Matches(o, p) <==> p.status == "active" && o.zipCode == p.zipCode
                               && o.durationMinutes.Some? && MatchOf(o, p).excessMinutes > 0
  {
  }

  /** The pairs of one outage with the policies it matches, in table order. */
  function PairsWith(o: OutageRow, ps: seq<PolicyRow>): (r: seq<MatchRow>)
    ensures forall p :: p in ps && Matches(o, p) ==> MatchOf(o, p) in r
    ensures forall x :: x in r ==> exists p :: p in ps && Matches(o, p) && x == MatchOf(o, p)
  {
    if ps == [] then []
    else
      var rest := PairsWith(o, ps[1..]);
      assert forall p :: p in ps[1..] ==> p in ps;
      assert forall p :: p in ps ==> p == ps[0] || p in ps[1..];
      if Matches(o, ps[0]) then [MatchOf(o, ps[0])] + rest else rest
  }

  /** The inner join, outage by outage. */
  function Joined(os: seq<OutageRow>, ps: seq<PolicyRow>): (r: seq<MatchRow>)
    ensures forall o, p :: o in os && p in ps && Matches(o, p) ==> MatchOf(o, p) in r
    ensures forall x :: x in r ==> exists o, p :: o in os && p in ps && Matches(o, p) && x == MatchOf(o, p)
  {
    if os == [] then []
    else
      var here := PairsWith(os[0], ps);
      var rest := Joined(os[1..], ps);
      assert forall o :: o in os[1..] ==> o in os;
      assert forall o :: o in os ==> o == os[0] || o in os[1..];
      here + rest
  }

  /** The key of `ORDER BY o.duration_minutes DESC`. */
  function Longest(m: MatchRow): int {
    -m.durationMinutes
  }

  /** The match query: the joined rows, longest outage first. Rows of equal duration keep
      the join's order. */
  function Matched(os: seq<OutageRow>, ps: seq<PolicyRow>): (r: seq<MatchRow>)
    ensures SortedBy(r, Longest)
    ensures multiset(r) == multiset(Joined(os, ps))
  {
    SortBy(Joined(os, ps), Longest)
  }

  /** A row is in the match result exactly when it is the selection of an outage and a
      policy that match; every such row has a positive excess over the threshold. */
  lemma MatchedExactly(os: seq<OutageRow>, ps: seq<PolicyRow>, x: MatchRow)
    ensures x in Matched(os, ps) <==> exists o, p :: o in os && p in ps && Matches(o, p) && x == MatchOf(o, p)
    ensures x in Matched(os, ps) ==> x.excessMinutes > 0 && x.excessMinutes == x.durationMinutes - x.thresholdMinutes
  {
    SortByKeepsElements(Joined(os, ps), Longest, x);
  }

  /** The match result runs from the longest outage to the shortest. */
  lemma MatchedLongestFirst(os: seq<OutageRow>, ps: seq<PolicyRow>, i: int, j: int)
    requires 0 <= i < j < |Matched(os, ps)|
    ensures Matched(os, ps)[i].durationMinutes >= Matched(os, ps)[j].durationMinutes
  {
    var r := Matched(os, ps);
    assert Longest(r[i]) <= Longest(r[j]);
  }

  // ---- step 5: grouping by outage ----

  /** One value of `outage_to_policies`: the details of the outage's first match and the
      policy ids of all its matches. */
  datatype OutageGroup = OutageGroup(
    eventId: string, utilityName: string, city: string, state: string, zipCode: string,
    affectedCustomers: int, outageStart: string, durationMinutes: int,
    reportedCause: Option<string>, policies: seq<string>)

  /** The entry created for an event id not seen before. */
  function NewGroup(m: MatchRow): OutageGroup {
    OutageGroup(m.eventId, m.utilityName, m.outageCity, m.outageState, m.zipCode,
                m.affectedCustomers, m.outageStart, m.durationMinutes, m.reportedCause, [])
  }

  /** The position of the group of `eid`, or -1 when there is none (`eid in outage_to_policies`). */
  function GroupIndex(groups: seq<OutageGroup>, eid: string): (k: int)
    ensures -1 <= k < |groups|
    ensures k >= 0 ==> groups[k].eventId == eid && forall j :: 0 <= j < k ==> groups[j].eventId != eid
    ensures k < 0 ==> forall j :: 0 <= j < |groups| ==> groups[j].eventId != eid
  {
    if groups == [] then -1
    else if groups[|groups| - 1].eventId == eid && GroupIndex(groups[..|groups| - 1], eid) < 0 then |groups| - 1
    else GroupIndex(groups[..|groups| - 1], eid)
  }

  /** One pass of the grouping loop: a new entry when the event id is new, then the match's
      policy id appended to its entry. */
  function AddMatch(groups: seq<OutageGroup>, m: MatchRow): (r: seq<OutageGroup>)
    ensures |r| == |groups| || |r| == |groups| + 1
  {
    var k := GroupIndex(groups, m.eventId);
    var gs := if k < 0 then groups + [NewGroup(m)] else groups;
    var at := if k < 0 then |groups| else k;
    gs[at := gs[at].(policies := gs[at].policies + [m.policyId])]
  }

  /** `outage_to_policies` after the loop over `ms`. */
  function Grouped(ms: seq<MatchRow>): (r: seq<OutageGroup>)
    ensures |r| <= |ms|
  {
    if ms == [] then [] else AddMatch(Grouped(ms[..|ms| - 1]), ms[|ms| - 1])
  }

  /** The policy ids of the matches of outage `eid`, in match order. */
  function PoliciesOf(ms: seq<MatchRow>, eid: string): (r: seq<string>)
    ensures |r| <= |ms|
  {
    if ms == [] then []
    else PoliciesOf(ms[..|ms| - 1], eid) + (if ms[|ms| - 1].eventId == eid then [ms[|ms| - 1].policyId] else [])
  }

  /** The grouping loop. */
  method GroupByOutage(ms: seq<MatchRow>) returns (groups: seq<OutageGroup>)
    ensures groups == Grouped(ms)
  {
    groups := [];
    var i := 0;
    while i < |ms|
      invariant 0 <= i <= |ms|
      invariant groups == Grouped(ms[..i])
    {
      var m := ms[i];
      var k := GroupIndex(groups, m.eventId);
      var entries, at := groups, k;
      if k < 0 {
        entries, at := groups + [NewGroup(m)], |groups|;
      }
      groups := entries[at := entries[at].(policies := entries[at].policies + [m.policyId])];
      GroupedStep(ms, i);
      i := i + 1;
    }
    assert ms[..i] == ms;
  }

  /** The grouping after one more match is one more pass of the loop body. */
  lemma GroupedStep(ms: seq<MatchRow>, i: nat)
    requires i < |ms|
    ensures Grouped(ms[..i + 1]) == AddMatch(Grouped(ms[..i]), ms[i])
  {
    assert ms[..i + 1][..i] == ms[..i];
  }

  /** No two entries share an outage id. */
  predicate DistinctIds(groups: seq<OutageGroup>) {
    forall a, b :: 0 <= a < b < |groups| ==> groups[a].eventId != groups[b].eventId
  }

  /** Every match's outage has an entry. */
  predicate Covers(ms: seq<MatchRow>, groups: seq<OutageGroup>) {
    forall j :: 0 <= j < |ms| ==> GroupIndex(groups, ms[j].eventId) >= 0
  }

  /** Every entry lists the policy ids of its outage's matches, in match order. */
  predicate Counts(ms: seq<MatchRow>, groups: seq<OutageGroup>) {
    forall k :: 0 <= k < |groups| ==> groups[k].policies == PoliciesOf(ms, groups[k].eventId)
  }

  /** Every entry carries the outage details of one of the matches. */
  predicate FromMatches(ms: seq<MatchRow>, groups: seq<OutageGroup>) {
    forall k :: 0 <= k < |groups| ==>
      exists j :: 0 <= j < |ms| && groups[k] == NewGroup(ms[j]).(policies := groups[k].policies)
  }

  /** What one pass of the loop does to the entries. */
  lemma AddMatchShape(groups: seq<OutageGroup>, m: MatchRow)
    ensures var r := AddMatch(groups, m);
      var k := GroupIndex(groups, m.eventId);
      (forall j :: 0 <= j < |groups| ==> r[j].eventId == groups[j].eventId)
      && (k < 0 ==> |r| == |groups| + 1 && r[|groups|] == NewGroup(m).(policies := [m.policyId])
                    && forall j :: 0 <= j < |groups| ==> r[j] == groups[j])
      && (k >= 0 ==> |r| == |groups| && r[k] == groups[k].(policies := groups[k].policies + [m.policyId])
                     && forall j :: 0 <= j < |groups| && j != k ==> r[j] == groups[j])
  {
  }

  lemma AddMatchDistinct(groups: seq<OutageGroup>, m: MatchRow)
    requires DistinctIds(groups)
    ensures DistinctIds(AddMatch(groups, m))
  {
    AddMatchShape(groups, m);
  }

  lemma AddMatchCovers(ms: seq<MatchRow>, groups: seq<OutageGroup>, m: MatchRow)
    requires Covers(ms, groups)
    ensures Covers(ms + [m], AddMatch(groups, m))
  {
    var r := AddMatch(groups, m);
    var k := GroupIndex(groups, m.eventId);
    AddMatchShape(groups, m);
    forall j | 0 <= j < |ms + [m]| ensures GroupIndex(r, (ms + [m])[j].eventId) >= 0 {
      if j < |ms| {
        assert (ms + [m])[j] == ms[j];
        GroupIndexFound(r, GroupIndex(groups, ms[j].eventId));
      } else if k < 0 {
        GroupIndexFound(r, |groups|);
      } else {
        GroupIndexFound(r, k);
      }
    }
  }

  lemma AddMatchCounts(ms: seq<MatchRow>, groups: seq<OutageGroup>, m: MatchRow)
    requires DistinctIds(groups) && Covers(ms, groups) && Counts(ms, groups)
    ensures Counts(ms + [m], AddMatch(groups, m))
  {
    var r := AddMatch(groups, m);
    var k := GroupIndex(groups, m.eventId);
    AddMatchShape(groups, m);
    forall i | 0 <= i < |r| ensures r[i].policies == PoliciesOf(ms + [m], r[i].eventId) {
      PoliciesOfSnoc(ms, m, r[i].eventId);
      if k < 0 && i == |groups| {
        forall j | 0 <= j < |ms| ensures ms[j].eventId != m.eventId {
          assert GroupIndex(groups, ms[j].eventId) >= 0;
        }
        PoliciesOfAbsent(ms, m.eventId);
      } else if k >= 0 && i != k {
        assert groups[i].eventId != groups[k].eventId by {
          if i < k {} else {}
        }
      }
    }
  }

  lemma AddMatchFromMatches(ms: seq<MatchRow>, groups: seq<OutageGroup>, m: MatchRow)
    requires FromMatches(ms, groups)
    ensures FromMatches(ms + [m], AddMatch(groups, m))
  {
    var r := AddMatch(groups, m);
    var all := ms + [m];
    var k := GroupIndex(groups, m.eventId);
    AddMatchShape(groups, m);
    forall i | 0 <= i < |r| ensures exists j :: 0 <= j < |all| && r[i] == NewGroup(all[j]).(policies := r[i].policies) {
      if i == |groups| {
        assert all[|ms|] == m;
        assert r[i] == NewGroup(all[|ms|]).(policies := r[i].policies);
      } else {
        var j :| 0 <= j < |ms| && groups[i] == NewGroup(ms[j]).(policies := groups[i].policies);
        assert all[j] == ms[j];
        assert r[i] == NewGroup(all[j]).(policies := r[i].policies);
      }
    }
  }

  lemma {:induction false} GroupedDistinct(ms: seq<MatchRow>)
    ensures DistinctIds(Grouped(ms))
  {
    if ms != [] {
      GroupedDistinct(ms[..|ms| - 1]);
      AddMatchDistinct(Grouped(ms[..|ms| - 1]), ms[|ms| - 1]);
    }
  }

  lemma {:induction false} GroupedCovers(ms: seq<MatchRow>)
    ensures Covers(ms, Grouped(ms))
  {
    if ms != [] {
      var init := ms[..|ms| - 1];
      GroupedCovers(init);
      AddMatchCovers(init, Grouped(init), ms[|ms| - 1]);
      assert init + [ms[|ms| - 1]] == ms;
    }
  }

  lemma {:induction false} GroupedCounts(ms: seq<MatchRow>)
    ensures Counts(ms, Grouped(ms))
  {
    if ms != [] {
      var init := ms[..|ms| - 1];
      GroupedDistinct(init);
      GroupedCovers(init);
      GroupedCounts(init);
      AddMatchCounts(init, Grouped(init), ms[|ms| - 1]);
      assert init + [ms[|ms| - 1]] == ms;
    }
  }

  lemma {:induction false} GroupedFromMatches(ms: seq<MatchRow>)
    ensures FromMatches(ms, Grouped(ms))
  {
    if ms != [] {
      var init := ms[..|ms| - 1];
      GroupedFromMatches(init);
      AddMatchFromMatches(init, Grouped(init), ms[|ms| - 1]);
      assert init + [ms[|ms| - 1]] == ms;
    }
  }

  /** What the grouping promises: one entry per outage among the matches and none other,
      each listing the policy ids of that outage's matches in order (so its `policy_count`
      is the number of matched rows for the outage) and carrying the outage's details. */
  lemma GroupedIsGroups(ms: seq<MatchRow>)
    ensures var g := Grouped(ms);
      DistinctIds(g) && Covers(ms, g) && Counts(ms, g) && FromMatches(ms, g)
  {
    GroupedDistinct(ms);
    GroupedCovers(ms);
    GroupedCounts(ms);
    GroupedFromMatches(ms);
  }

  /** A match of another outage adds nothing to an outage's policy ids. */
  lemma PoliciesOfSnoc(ms: seq<MatchRow>, m: MatchRow, eid: string)
    ensures PoliciesOf(ms + [m], eid) == PoliciesOf(ms, eid) + (if m.eventId == eid then [m.policyId] else [])
  {
    assert (ms + [m])[..|ms|] == ms;
  }

  /** An outage without matches has no policy ids. */
  lemma {:induction false} PoliciesOfAbsent(ms: seq<MatchRow>, eid: string)
    requires forall j :: 0 <= j < |ms| ==> ms[j].eventId != eid
    ensures PoliciesOf(ms, eid) == []
  {
    if ms != [] {
      PoliciesOfAbsent(ms[..|ms| - 1], eid);
    }
  }

  /** A group at position `k` is found by its own id. */
  lemma GroupIndexFound(groups: seq<OutageGroup>, k: int)
    requires 0 <= k < |groups|
    ensures GroupIndex(groups, groups[k].eventId) >= 0
  {
  }

  /** The keys of the `outage.detected` payload, in the order the notebook writes them. */
  const DetectedKeys: seq<string> := ["event_id", "utility_name", "city", "state", "zip_code",
    "affected_customers", "outage_start", "duration_minutes", "reported_cause", "affected_policies",
    "policy_count"]

  lemma DetectedKeysDistinct()
    ensures DistinctKeys(DetectedKeys)
  {
  }

  /** The `outage.detected` call for one group: subject `outage/<event id>`, and the group's
      entry with `policy_count` added. */
  function DetectedRequest(g: OutageGroup): (q: Request)
    ensures q.eventType == OutageDetected && q.subject == "outage/" + g.eventId
    ensures q.data.JObj? && Keys(q.data.fields) == DetectedKeys
    ensures Lookup(q.data.fields, "policy_count") == Some(JInt(|g.policies|))
    ensures Lookup(q.data.fields, "affected_policies") == Some(StrList(g.policies))
  {
    var values := [JStr(g.eventId), JStr(g.utilityName), JStr(g.city), JStr(g.state), JStr(g.zipCode),
                   JInt(g.affectedCustomers), JStr(g.outageStart), JInt(g.durationMinutes),
                   OptStr(g.reportedCause), StrList(g.policies), JInt(|g.policies|)];
    DetectedKeysDistinct();
    KeysOfZip(DetectedKeys, values);
    LookupZip(DetectedKeys, values, 9);
    LookupZip(DetectedKeys, values, 10);
    Request(OutageDetected, "outage/" + g.eventId, JObj(Zip(DetectedKeys, values)))
  }

  /** The `outage.detected` calls, one per group in insertion order. */
  function DetectedRequests(groups: seq<OutageGroup>): (qs: seq<Request>)
    ensures |qs| == |groups| && forall k :: 0 <= k < |groups| ==> qs[k] == DetectedRequest(groups[k])
  {
    seq(|groups|, k requires 0 <= k < |groups| => DetectedRequest(groups[k]))
  }

  /** Each `outage.detected` event of the matches announces a distinct outage, and counts
      exactly the matched rows of that outage. */
  lemma DetectedCountsMatches(ms: seq<MatchRow>, k: int)
    requires 0 <= k < |Grouped(ms)|
    ensures var g := Grouped(ms)[k];
      Lookup(DetectedRequests(Grouped(ms))[k].data.fields, "policy_count") == Some(JInt(|PoliciesOf(ms, g.eventId)|))
      && (exists j :: 0 <= j < |ms| && ms[j].eventId == g.eventId)
      && forall k' :: 0 <= k' < |Grouped(ms)| && k' != k ==> Grouped(ms)[k'].eventId != g.eventId
  {
    GroupedIsGroups(ms);
    var gs := Grouped(ms);
    var j :| 0 <= j < |ms| && gs[k] == NewGroup(ms[j]).(policies := gs[k].policies);
    assert ms[j].eventId == gs[k].eventId;
    forall k' | 0 <= k' < |gs| && k' != k ensures gs[k'].eventId != gs[k].eventId {
      if k' < k {
        assert gs[k'].eventId != gs[k].eventId;
      }
    }
  }

  /** Step 5: match, group, and publish one `outage.detected` event per outage. */
  method PublishDetected(os: seq<OutageRow>, ps: seq<PolicyRow>, client: NotebookEventGridClient,
                         uuidFor: int -> string, now: string, dumps: Json -> string, failures: int -> Option<string>)
    returns (groups: seq<OutageGroup>)
    modifies client
    ensures groups == Grouped(Matched(os, ps))
    ensures client.auditLog == old(client.auditLog) + RemoteAudits(old(client.counter), DetectedRequests(groups), uuidFor, now, dumps, failures)
    ensures client.counter == old(client.counter) + |groups|
  {
    groups := GroupByOutage(Matched(os, ps));
    if |groups| > 0 {
      client.PublishAll(DetectedRequests(groups), uuidFor, now, dumps, failures);
    }
  }

  // ---- step 6: validation ----

  /** `value or 0` for a wind reading. */
  function WindOrZero(f: Field<real>): real {
    if f.Val? then f.v else 0.0
  }

  /** `str(weather.get("alert_type", ""))`. */
  function AlertText(f: Field<string>): string {
    match f
    case Missing => ""
    case Null => "None"
    case Val(s) => s
  }

  /** `calculate_weather_factor(weather)`: the multiplier and the severity label. */
  function WeatherFactor(weather: Option<WeatherRow>): (r: (real, string))
    ensures r in [(1.0, "unknown"), (1.5, "severe"), (1.2, "high"), (1.1, "medium"), (1.0, "low")]
    ensures 1.0 <= r.0 <= 1.5
    ensures r.1 == "unknown" <==> weather.None? || !weather.value.Truthy()
  {
    if weather.None? || !weather.value.Truthy() then (1.0, "unknown")
    else
      var w := weather.value;
      var mx := if WindOrZero(w.windGust) > WindOrZero(w.windSpeed) then WindOrZero(w.windGust) else WindOrZero(w.windSpeed);
      var alert := w.severeAlert == Val(true);
      var at := AlertText(w.alertType);
      if alert && (Contains(at, "Severe") || Contains(at, "Hurricane") || mx > 55.0) then (1.5, "severe")
      else if alert || mx > 40.0 then (1.2, "high")
      else if mx > 25.0 then (1.1, "medium")
      else (1.0, "low")
  }

  /** A stronger wind reading never lowers the multiplier. */
  lemma WeatherFactorGrowsWithWind(w: WeatherRow, speed: real)
    requires w.Truthy() && speed >= WindOrZero(w.windSpeed)
    ensures WeatherFactor(Some(w.(windSpeed := Val(speed)))).0 >= WeatherFactor(Some(w)).0
  {
  }

  /** A severe-weather alert never lowers the multiplier, and lifts it to at least 1.2. */
  lemma WeatherFactorGrowsWithAlert(w: WeatherRow)
    ensures var r := WeatherFactor(Some(w.(severeAlert := Val(true))));
      r.0 >= WeatherFactor(Some(w)).0 && r.0 >= 1.2
  {
  }

  /** The rule-based validator's verdict, before it becomes a dictionary. */
  datatype Verdict = Verdict(
    decision: string, confidence: real, payout: real, reasoning: string, severity: string,
    weatherFactor: real, fraudSignals: seq<string>, evidence: seq<(string, string)>)

  /** `min((excess / 60.0) * hourly_rate * wf, max_payout)`. */
  function CappedPayout(excess: int, rate: real, wf: real, cap: real): (r: real)
    ensures r <= cap && (r == cap || r == excess as real / 60.0 * rate * wf)
  {
    Min(excess as real / 60.0 * rate * wf, cap)
  }

  /** `rule_based_validation(policy, outage, weather)` for the policy's threshold, rate and
      cap and the outage's duration, cause and customer count. */
  function RuleBasedValidation(threshold: int, rate: real, cap: real, duration: int,
                               cause: Option<string>, customers: int, weather: Option<WeatherRow>): (v: Verdict)
    ensures v.decision in ["approved", "denied"]
  {
    var excess := duration - threshold;
    if excess <= 0 then
      Verdict("denied", 0.95, 0.0,
              "Duration (" + IntToString(duration) + " min) < threshold (" + IntToString(threshold) + " min).",
              "none", 1.0, [], [])
    else
      var (wf, sev) := WeatherFactor(weather);
      var final := CappedPayout(excess, rate, wf, cap);
      var planned := cause == Some("planned_maintenance");
      var conf := Confidence(weather.Some? && weather.value.Truthy(), customers);
      var factor := Fixed(wf, 1, false);
      var money := "$" + Fixed(final, 2, true);
      Verdict(if planned then "denied" else "approved", conf, Round2(final),
              "Outage " + IntToString(duration) + " min, threshold " + IntToString(threshold) + " min, excess "
                + IntToString(excess) + " min. Weather: " + sev + " (" + factor + "x). Payout: " + money + ".",
              sev, wf, if planned then ["planned_maintenance_not_covered"] else [],
              [("duration", IntToString(duration) + " min"), ("threshold", IntToString(threshold) + " min"),
               ("weather", sev + " (" + factor + "x)"), ("payout", money)])
  }

  /** At or below the threshold the validator denies and pays nothing. */
  lemma RuleBasedDenial(threshold: int, rate: real, cap: real, duration: int,
                        cause: Option<string>, customers: int, weather: Option<WeatherRow>)
    requires duration <= threshold
    ensures var v := RuleBasedValidation(threshold, rate, cap, duration, cause, customers, weather);
      v.decision == "denied" && v.payout == 0.0 && v.weatherFactor == 1.0 && v.fraudSignals == []
      && v.confidence == 0.95 && v.evidence == []
  {
  }

  /** Above the threshold the payout is the capped excess hours at the weather-adjusted
      rate, rounded to cents; the claim is denied, with a fraud signal, exactly when the
      cause is planned maintenance; and the confidence lies between 0.92 and 0.97. */
  lemma RuleBasedApproval(threshold: int, rate: real, cap: real, duration: int,
                          cause: Option<string>, customers: int, weather: Option<WeatherRow>)
    requires duration > threshold
    ensures var v := RuleBasedValidation(threshold, rate, cap, duration, cause, customers, weather);
      v.weatherFactor == WeatherFactor(weather).0 && v.severity == WeatherFactor(weather).1
    ensures var v := RuleBasedValidation(threshold, rate, cap, duration, cause, customers, weather);
      v.payout == Round2(CappedPayout(duration - threshold, rate, WeatherFactor(weather).0, cap))
    ensures var v := RuleBasedValidation(threshold, rate, cap, duration, cause, customers, weather);
      (v.decision == "denied" <==> cause == Some("planned_maintenance"))
      && (v.fraudSignals != [] <==> cause == Some("planned_maintenance"))
    ensures var v := RuleBasedValidation(threshold, rate, cap, duration, cause, customers, weather);
      0.92 <= v.confidence <= 0.97 && |v.evidence| == 4
  {
  }

  /** A payout capped at a whole number of cents pays the cap exactly, and every payout is
      within half a cent of the capped amount. */
  lemma RoundedPayoutKeepsCap(excess: int, rate: real, wf: real, cap: real)
    ensures var final := CappedPayout(excess, rate, wf, cap);
      final - 0.005 <= Round2(final) <= final + 0.005
      && ((cap * 100.0).Floor as real == cap * 100.0 && final == cap ==> Round2(final) == cap)
  {
  }

  /** `round(min(0.92 + 0.03·[weather] + 0.02·[more than 5000 customers out], 0.99), 4)`:
      one of 0.92, 0.94, 0.95 and 0.97, the cap never reached. */
  function Confidence(weatherPresent: bool, customers: int): (c: real)
    ensures 0.92 <= c <= 0.97
    ensures c == 0.92 + (if weatherPresent then 0.03 else 0.0) + (if customers > 5000 then 0.02 else 0.0)
  {
    var conf := Min(0.92 + (if weatherPresent then 0.03 else 0.0) + (if customers > 5000 then 0.02 else 0.0), 0.99);
    assert conf in [0.92, 0.94, 0.95, 0.97];
    assert (conf * 10000.0).Floor as real == conf * 10000.0;
    Round4(conf)
  }

  /** A validator's answer read key by key (`None` for an absent key): the rule-based
      verdict, or the dictionary the language model answered with. */
  datatype Answer = Answer(
    decision: Option<Json>, confidence: Option<Json>, payout: Option<Json>, reasoning: Option<Json>,
    severity: Option<Json>, weatherFactor: Option<Json>, fraudSignals: Option<Json>)

  /** The verdict as the dictionary `rule_based_validation` returns. */
  function VerdictAnswer(v: Verdict): (a: Answer)
    ensures a.decision == Some(JStr(v.decision)) && a.payout == Some(JNum(v.payout))
    ensures a.confidence == Some(JNum(v.confidence)) && a.reasoning == Some(JStr(v.reasoning))
  {
    Answer(Some(JStr(v.decision)), Some(JNum(v.confidence)), Some(JNum(v.payout)), Some(JStr(v.reasoning)),
           Some(JStr(v.severity)), Some(JNum(v.weatherFactor)), Some(StrList(v.fraudSignals)))
  }

  /** The keys of a parsed model answer; `None` when the answer is not a dictionary, where
      the first subscript raises. */
  function ReadAnswer(j: Json): (a: Option<Answer>)
    ensures a.Some? <==> j.JObj?
    ensures a.Some? ==> a.value.decision == Lookup(j.fields, "decision")
  {
    match j
    case JObj(f) =>
      Some(Answer(Lookup(f, "decision"), Lookup(f, "confidence_score"), Lookup(f, "payout_amount"),
                  Lookup(f, "reasoning"), Lookup(f, "severity_assessment"), Lookup(f, "weather_factor"),
                  Lookup(f, "fraud_signals")))
    case _ => None
  }

  /** `wd`: the weather row stored under the zip code, or, when that is absent or empty,
      the one stored under `<city>-<state>`. */
  function WeatherFor(lookup: string -> Option<WeatherRow>, m: MatchRow): (w: Option<WeatherRow>)
    ensures lookup(m.zipCode).Some? && lookup(m.zipCode).value.Truthy() ==> w == lookup(m.zipCode)
    ensures !(lookup(m.zipCode).Some? && lookup(m.zipCode).value.Truthy()) ==> w == lookup(m.outageCity + "-" + m.outageState)
  {
    var z := lookup(m.zipCode);
    if z.Some? && z.value.Truthy() then z else lookup(m.outageCity + "-" + m.outageState)
  }

  /** `foundry_agent_validation(policy, outage, weather)`: `reply` is the model's parsed
      answer, or `None` when the model is not configured or the exchange raised, in which
      case the rule-based verdict is used. */
  function Validate(m: MatchRow, weather: Option<WeatherRow>, reply: Option<Json>): (a: Option<Answer>)
    ensures reply.None? ==> a == Some(VerdictAnswer(RuleBasedValidation(m.thresholdMinutes, m.hourlyRate,
                                m.maxPayout, m.durationMinutes, m.reportedCause, m.affectedCustomers, weather)))
    ensures reply.Some? ==> a == ReadAnswer(reply.value)
  {
    if reply.None? then
      Some(VerdictAnswer(RuleBasedValidation(m.thresholdMinutes, m.hourlyRate, m.maxPayout, m.durationMinutes,
                                             m.reportedCause, m.affectedCustomers, weather)))
    else ReadAnswer(reply.value)
  }

  // ---- step 6: claim records ----

  /** The draws made for one match: the `uuid4().hex` of the claim id, `utcnow()`, the two
      `randint` draws, and the model's parsed answer. */
  datatype ClaimDraw = ClaimDraw(hex: string, now: Instant, validatedDraw: int, approvedDraw: int, reply: Option<Json>)

  /** One element of `claim_records`. */
  datatype ClaimRecord = ClaimRecord(
    claimId: string, policyId: string, outageEventId: string, status: string, filedAt: Instant,
    validatedAt: Instant, approvedAt: Option<Instant>, deniedAt: Option<Instant>,
    denialReason: Option<Json>, payoutAmount: real, aiConfidence: real, aiReasoning: Json,
    fraudFlags: string, weatherFactor: Json, severity: Json, createdAt: Instant, updatedAt: Instant)

  /** `f"CLM-{uuid.uuid4().hex[:8].upper()}"`. */
  function ClaimIdOf(hex: string): (id: string)
    ensures StartsWith(id, "CLM-") && |id| == 4 + (if |hex| < 8 then |hex| else 8)
  {
    "CLM-" + Upper(Take(hex, 8))
  }

  /** A value `format` accepts with `.1%` and `,.2f`: a number (or a boolean, which Python
      formats as 0 or 1). */
  function Number(j: Json): Option<real> {
    match j
    case JInt(i) => Some(i as real)
    case JNum(r) => Some(r)
    case JBool(b) => Some(if b then 1.0 else 0.0)
    case _ => None
  }

  /** The claim record for match `m` and answer `a`, or the error the loop raises: a
      missing key of the record's subscripts, then a decision that is not a string
      (`.upper()`) or a confidence or payout that is not a number (the format specs). */
  function ClaimFor(m: MatchRow, a: Answer, d: ClaimDraw, dumps: Json -> string): (r: Result<ClaimRecord>)
    ensures r.Ok? <==> a.decision.Some? && a.decision.value.JStr? && a.payout.Some? && Number(a.payout.value).Some?
                       && a.confidence.Some? && Number(a.confidence.value).Some? && a.reasoning.Some?
    ensures r.Ok? ==>
      var c := r.value;
      c.status == a.decision.value.s && c.claimId == ClaimIdOf(d.hex)
      && c.policyId == m.policyId && c.outageEventId == m.eventId
      && c.payoutAmount == Number(a.payout.value).value
      && (c.approvedAt.Some? <==> c.status == "approved")
      && (c.deniedAt.Some? <==> c.status == "denied") && (c.denialReason.Some? <==> c.status == "denied")
      && c.filedAt == d.now && d.now + 5 <= c.validatedAt <= d.now + 30
      && (c.approvedAt.Some? ==> d.now + 10 <= c.approvedAt.value <= d.now + 45)
      && (c.deniedAt.Some? ==> c.deniedAt.value == d.now + 10)
  {
    if a.decision.None? || a.payout.None? || a.confidence.None? || a.reasoning.None? then Err("KeyError")
    else if !a.decision.value.JStr? then Err("AttributeError")
    else if Number(a.confidence.value).None? || Number(a.payout.value).None? then Err("TypeError")
    else
      var status := a.decision.value.s;
      var ct := d.now;
      Ok(ClaimRecord(ClaimIdOf(d.hex), m.policyId, m.eventId, status, ct,
                  ct + Presto.RandInt(5, 30, d.validatedDraw),
                  if status == "approved" then Some(ct + Presto.RandInt(10, 45, d.approvedDraw)) else None,
                  if status == "denied" then Some(ct + 10) else None,
                  if status == "denied" then a.reasoning else None,
                  Number(a.payout.value).value, Number(a.confidence.value).value, a.reasoning.value,
                  dumps(if a.fraudSignals.Some? then a.fraudSignals.value else JList([])),
                  if a.weatherFactor.Some? then a.weatherFactor.value else JNum(1.0),
                  if a.severity.Some? then a.severity.value else JStr("unknown"),
                  ct, ct))
  }

  /** The `claim.approved` or `claim.denied` call for a filed claim. */
  function ClaimRequest(m: MatchRow, a: Answer, c: ClaimRecord): (q: Request)
    requires a.payout.Some? && a.confidence.Some?
    ensures q.eventType == (if c.status == "approved" then ClaimApproved else ClaimDenied)
    ensures q.subject == "claim/" + c.claimId && q.data.JObj?
  {
    Request(if c.status == "approved" then ClaimApproved else ClaimDenied, "claim/" + c.claimId,
            JObj([("claim_id", JStr(c.claimId)), ("policy_id", JStr(m.policyId)), ("outage_event_id", JStr(m.eventId)),
                  ("status", JStr(c.status)), ("payout_amount", a.payout.value), ("ai_confidence_score", a.confidence.value),
                  ("severity_assessment", if a.severity.Some? then a.severity.value else JNull),
                  ("weather_factor", if a.weatherFactor.Some? then a.weatherFactor.value else JNum(1.0)),
                  ("business_name", JStr(m.businessName)), ("city", JStr(m.outageCity)), ("state", JStr(m.outageState))]))
  }

  /** How the validation loop ends: the claims filed and the events published before the
      first row that raised, and that row's error. */
  datatype Filing = Filing(claims: seq<ClaimRecord>, requests: seq<Request>, error: Option<string>)

  /** The validation loop from row `from` on, where `file(i, m)` files row `i`. */
  function FiledBy(file: (nat, MatchRow) -> Result<(ClaimRecord, Request)>, ms: seq<MatchRow>, from: nat): (f: Filing)
    ensures |f.claims| == |f.requests| <= |ms|
    ensures f.error.None? ==> |f.claims| == |ms|
    decreases |ms|
  {
    if ms == [] then Filing([], [], None)
    else match file(from, ms[0])
      case Err(e) => Filing([], [], Some(e))
      case Ok((c, q)) =>
        var rest := FiledBy(file, ms[1..], from + 1);
        Filing([c] + rest.claims, [q] + rest.requests, rest.error)
  }

  /** The `j`-th claim filed and its call are what `file` gave for the `j`-th row. */
  lemma {:induction false} FiledByRow(file: (nat, MatchRow) -> Result<(ClaimRecord, Request)>, ms: seq<MatchRow>, from: nat, j: nat)
    requires j < |FiledBy(file, ms, from).claims|
    ensures file(from + j, ms[j]) == Ok((FiledBy(file, ms, from).claims[j], FiledBy(file, ms, from).requests[j]))
    decreases |ms|
  {
    var f := FiledBy(file, ms, from);
    var rest := FiledBy(file, ms[1..], from + 1);
    assert f.claims == [file(from, ms[0]).value.0] + rest.claims;
    assert f.requests == [file(from, ms[0]).value.1] + rest.requests;
    if j > 0 {
      FiledByRow(file, ms[1..], from + 1, j - 1);
      assert ms[1..][j - 1] == ms[j];
    }
  }

  /** When filing stops on an error, the row after the last one filed is the one that raised. */
  lemma {:induction false} FiledByStops(file: (nat, MatchRow) -> Result<(ClaimRecord, Request)>, ms: seq<MatchRow>, from: nat)
    ensures var f := FiledBy(file, ms, from);
      f.error.Some? ==> |f.claims| < |ms| && file(from + |f.claims|, ms[|f.claims|]).Err?
    decreases |ms|
  {
    if ms != [] && file(from, ms[0]).Ok? {
      var f := FiledBy(file, ms, from);
      var rest := FiledBy(file, ms[1..], from + 1);
      FiledByStops(file, ms[1..], from + 1);
      assert |f.claims| == 1 + |rest.claims|;
      if f.error.Some? {
        assert ms[|f.claims|] == ms[1..][|rest.claims|];
      }
    }
  }

  /** One row of the validation loop: validate, file the claim, and build its event. */
  function FileRow(lookup: string -> Option<WeatherRow>, draws: nat -> ClaimDraw, dumps: Json -> string,
                   i: nat, m: MatchRow): (r: Result<(ClaimRecord, Request)>)
    ensures r.Ok? ==> r.value.0.policyId == m.policyId && r.value.0.outageEventId == m.eventId
  {
    var a := Validate(m, WeatherFor(lookup, m), draws(i).reply);
    if a.None? then Err("TypeError")
    else match ClaimFor(m, a.value, draws(i), dumps)
      case Err(e) => Err(e)
      case Ok(c) => Ok((c, ClaimRequest(m, a.value, c)))
  }

  /** Without the language model a row is always filed, under the rule-based decision, for
      the row's policy, and announced as an approval exactly when it was approved. */
  lemma FileRowRuleBased(lookup: string -> Option<WeatherRow>, draws: nat -> ClaimDraw, dumps: Json -> string,
                         i: nat, m: MatchRow)
    requires draws(i).reply.None?
    ensures var r := FileRow(lookup, draws, dumps, i, m);
      r.Ok? && r.value.0.status in ["approved", "denied"] && r.value.0.policyId == m.policyId
      && (r.value.1.eventType == ClaimApproved <==> r.value.0.status == "approved")
  {
    var v := RuleBasedValidation(m.thresholdMinutes, m.hourlyRate, m.maxPayout, m.durationMinutes,
                                 m.reportedCause, m.affectedCustomers, WeatherFor(lookup, m));
    VerdictFiled(m, v, draws(i), dumps);
  }

  /** A rule-based verdict is always filed, under its own decision. */
  lemma VerdictFiled(m: MatchRow, v: Verdict, d: ClaimDraw, dumps: Json -> string)
    requires v.decision in ["approved", "denied"]
    ensures var r := ClaimFor(m, VerdictAnswer(v), d, dumps);
      r.Ok? && r.value.status == v.decision && r.value.policyId == m.policyId
  {
  }

  /** The validation loop over the matches. */
  function FileClaims(ms: seq<MatchRow>, lookup: string -> Option<WeatherRow>, draws: nat -> ClaimDraw,
                      dumps: Json -> string): Filing {
    FiledBy((i: nat, m: MatchRow) => FileRow(lookup, draws, dumps, i, m), ms, 0)
  }

  /** Filing by a step that never fails files every row. */
  lemma {:induction false} FiledByTotal(file: (nat, MatchRow) -> Result<(ClaimRecord, Request)>, ms: seq<MatchRow>, from: nat)
    requires forall i: nat, m: MatchRow :: from <= i ==> file(i, m).Ok?
    ensures FiledBy(file, ms, from).error.None?
    decreases |ms|
  {
    if ms != [] {
      FiledByTotal(file, ms[1..], from + 1);
    }
  }

  /** Without the language model every match is filed, with status "approved" or "denied",
      the claim record status deciding the event type. */
  lemma RuleBasedFilesEveryMatch(ms: seq<MatchRow>, lookup: string -> Option<WeatherRow>, draws: nat -> ClaimDraw,
                                 dumps: Json -> string)
    requires forall i: nat :: draws(i).reply.None?
    ensures var f := FileClaims(ms, lookup, draws, dumps);
      f.error.None? && |f.claims| == |ms|
      && forall j :: 0 <= j < |ms| ==>
           f.claims[j].status in ["approved", "denied"] && f.claims[j].policyId == ms[j].policyId
           && (f.requests[j].eventType == ClaimApproved <==> f.claims[j].status == "approved")
  {
    var file := (i: nat, m: MatchRow) => FileRow(lookup, draws, dumps, i, m);
    forall i: nat, m: MatchRow ensures file(i, m).Ok? {
      FileRowRuleBased(lookup, draws, dumps, i, m);
    }
    FiledByTotal(file, ms, 0);
    var f := FileClaims(ms, lookup, draws, dumps);
    forall j | 0 <= j < |ms|
      ensures f.claims[j].status in ["approved", "denied"] && f.claims[j].policyId == ms[j].policyId
              && (f.requests[j].eventType == ClaimApproved <==> f.claims[j].status == "approved")
    {
      RuleBasedRow(ms, lookup, draws, dumps, j);
    }
  }

  lemma RuleBasedRow(ms: seq<MatchRow>, lookup: string -> Option<WeatherRow>, draws: nat -> ClaimDraw,
                     dumps: Json -> string, j: nat)
    requires draws(j).reply.None?
    requires j < |FileClaims(ms, lookup, draws, dumps).claims|
    ensures var f := FileClaims(ms, lookup, draws, dumps);
      f.claims[j].status in ["approved", "denied"] && f.claims[j].policyId == ms[j].policyId
      && (f.requests[j].eventType == ClaimApproved <==> f.claims[j].status == "approved")
  {
    FileClaimsRow(ms, lookup, draws, dumps, j);
    FileRowRuleBased(lookup, draws, dumps, j, ms[j]);
  }

  /** The loop files its rows in order: the `j`-th claim and call are those of the `j`-th
      match, filed with the `j`-th draws, and the claims are as many as the calls. */
  lemma FileClaimsRow(ms: seq<MatchRow>, lookup: string -> Option<WeatherRow>, draws: nat -> ClaimDraw,
                      dumps: Json -> string, j: nat)
    requires j < |FileClaims(ms, lookup, draws, dumps).claims|
    ensures var f := FileClaims(ms, lookup, draws, dumps);
      j < |ms| && |f.claims| == |f.requests|
      && FileRow(lookup, draws, dumps, j, ms[j]) == Ok((f.claims[j], f.requests[j]))
  {
    var file := (i: nat, m: MatchRow) => FileRow(lookup, draws, dumps, i, m);
    FiledByRow(file, ms, 0, j);
  }

  /** A decision the notebook does not know, such as the agent's "approve", is filed under
      that status with neither an approval nor a denial time, and announced as a denial. */
  lemma UnknownDecisionAnnouncedAsDenial(m: MatchRow, a: Answer, d: ClaimDraw, dumps: Json -> string)
    requires a.decision == Some(JStr("approve")) && a.reasoning.Some?
    requires a.payout == Some(JNum(100.0)) && a.confidence == Some(JNum(0.85))
    ensures ClaimFor(m, a, d, dumps).Ok?
    ensures var c := ClaimFor(m, a, d, dumps).value;
      c.status == "approve" && c.approvedAt.None? && c.deniedAt.None?
      && ClaimRequest(m, a, c).eventType == ClaimDenied
  {
  }

  /** Step 6: file the claims and publish one event per claim filed. The claims reach the
      table only when no row raised. */
  method FileAndPublish(ms: seq<MatchRow>, lookup: string -> Option<WeatherRow>, draws: nat -> ClaimDraw,
                        dumps: Json -> string, client: NotebookEventGridClient,
                        uuidFor: int -> string, now: string, failures: int -> Option<string>)
    returns (r: Result<seq<ClaimRecord>>)
    modifies client
    ensures var f := FileClaims(ms, lookup, draws, dumps);
      (r.Ok? <==> f.error.None?) && (r.Ok? ==> r.value == f.claims)
      && client.auditLog == old(client.auditLog) + RemoteAudits(old(client.counter), f.requests, uuidFor, now, dumps, failures)
  {
    var f := FileClaims(ms, lookup, draws, dumps);
    client.PublishAll(f.requests, uuidFor, now, dumps, failures);
    if f.error.Some? {
      return Err(f.error.value);
    }
    return Ok(f.claims);
  }

  // ---- step 7: payouts ----

  /** `[c for c in claim_records if c["status"] == "approved"]`. */
  function Approved(claims: seq<ClaimRecord>): (r: seq<ClaimRecord>)
    ensures forall c :: c in r <==> c in claims && c.status == "approved"
    ensures |r| <= |claims|
  {
    if claims == [] then []
    else (if claims[0].status == "approved" then [claims[0]] else []) + Approved(claims[1..])
  }

  /** The draws made for one payout: the two `uuid4().hex`, `utcnow()` and the `randint`. */
  datatype PayoutDraw = PayoutDraw(payHex: string, txnHex: string, now: Instant, completionDraw: int)

  /** One element of `payout_records`. */
  datatype PayoutRecord = PayoutRecord(
    payoutId: string, claimId: string, policyId: string, amount: real, status: string,
    initiatedAt: Instant, completedAt: Instant, transactionId: string, paymentMethod: string, createdAt: Instant)

  /** The payout record of an approved claim. */
  function PayoutFor(c: ClaimRecord, d: PayoutDraw): (p: PayoutRecord)
    ensures p.claimId == c.claimId && p.policyId == c.policyId && p.amount == c.payoutAmount
    ensures StartsWith(p.payoutId, "PAY-") && StartsWith(p.transactionId, "TXN-")
    ensures p.status == "completed" && p.paymentMethod == "ACH"
    ensures d.now + 2 <= p.completedAt <= d.now + 15 && p.initiatedAt == d.now
  {
    PayoutRecord("PAY-" + Upper(Take(d.payHex, 8)), c.claimId, c.policyId, c.payoutAmount, "completed",
                 d.now, d.now + Presto.RandInt(2, 15, d.completionDraw), "TXN-" + Upper(Take(d.txnHex, 12)),
                 "ACH", d.now)
  }

  /** The payouts `pay` makes for the claims `cs`, the `k`-th as `pay(cs[k], k)`. */
  function PaidBy(pay: (ClaimRecord, nat) -> PayoutRecord, cs: seq<ClaimRecord>): (ps: seq<PayoutRecord>)
    ensures |ps| == |cs|
  {
    if cs == [] then [] else PaidBy(pay, cs[..|cs| - 1]) + [pay(cs[|cs| - 1], |cs| - 1)]
  }

  /** The `k`-th payout of the loop, made with the `k`-th draws. */
  function PayWith(draws: nat -> PayoutDraw): (pay: (ClaimRecord, nat) -> PayoutRecord)
    ensures forall c, k :: pay(c, k) == PayoutFor(c, draws(k))
  {
    (c: ClaimRecord, k: nat) => PayoutFor(c, draws(k))
  }

  /** The sum of the claims' payout amounts, added up front to back. */
  function Total(cs: seq<ClaimRecord>): real {
    if cs == [] then 0.0 else Total(cs[..|cs| - 1]) + cs[|cs| - 1].payoutAmount
  }

  /** The sum of the payouts' amounts, added up front to back. */
  function PaidTotal(ps: seq<PayoutRecord>): real {
    if ps == [] then 0.0 else PaidTotal(ps[..|ps| - 1]) + ps[|ps| - 1].amount
  }

  /** The payout loop over the approved claims: one payout per claim, in claim order, and
      the running total. */
  method ProcessPayouts(approved: seq<ClaimRecord>, pay: (ClaimRecord, nat) -> PayoutRecord)
    returns (payouts: seq<PayoutRecord>, total: real)
    ensures payouts == PaidBy(pay, approved)
    ensures total == Total(approved)
  {
    payouts := [];
    total := 0.0;
    var i := 0;
    while i < |approved|
      invariant 0 <= i <= |approved|
      invariant payouts == PaidBy(pay, approved[..i])
      invariant total == Total(approved[..i])
    {
      payouts := payouts + [pay(approved[i], i)];
      total := total + approved[i].payoutAmount;
      assert approved[..i + 1][..i] == approved[..i];
      i := i + 1;
    }
    assert approved[..i] == approved;
  }

  /** Every claim gets exactly one payout, made by `pay` with its position, and the total
      of the claims' amounts is the total of the payouts when each pays its claim's amount. */
  lemma {:induction false} PaidByMatchesClaims(pay: (ClaimRecord, nat) -> PayoutRecord, cs: seq<ClaimRecord>)
    requires forall c, k :: pay(c, k).amount == c.payoutAmount
    ensures var ps := PaidBy(pay, cs);
      PaidTotal(ps) == Total(cs) && forall k :: 0 <= k < |cs| ==> ps[k] == pay(cs[k], k)
    decreases |cs|
  {
    if cs != [] {
      var n := |cs| - 1;
      var ps := PaidBy(pay, cs);
      PaidByMatchesClaims(pay, cs[..n]);
      assert ps[..n] == PaidBy(pay, cs[..n]);
      forall k | 0 <= k < n ensures ps[k] == pay(cs[k], k) {
        assert ps[k] == ps[..n][k];
        assert cs[k] == cs[..n][k];
      }
    }
  }

  /** Every approved claim gets exactly one payout, of its own amount, with a `PAY-` id and
      a `TXN-` transaction id, and `total_payout` is the sum of the payouts made. */
  lemma PayoutsMatchApproved(claims: seq<ClaimRecord>, draws: nat -> PayoutDraw)
    ensures var approved := Approved(claims);
      var ps := PaidBy(PayWith(draws), approved);
      |ps| == |approved| && PaidTotal(ps) == Total(approved)
      && forall k :: 0 <= k < |ps| ==>
           ps[k].claimId == approved[k].claimId && ps[k].amount == approved[k].payoutAmount
           && approved[k].status == "approved"
           && StartsWith(ps[k].payoutId, "PAY-") && StartsWith(ps[k].transactionId, "TXN-")
  {
    var approved := Approved(claims);
    PaidByMatchesClaims(PayWith(draws), approved);
    forall k | 0 <= k < |approved| ensures approved[k].status == "approved" {
      assert approved[k] in approved;
    }
  }

  /** The `payout.processed` call for one payout. */
  function PayoutRequest(p: PayoutRecord): (q: Request)
    ensures q.eventType == PayoutProcessed && q.subject == "payout/" + p.payoutId && q.data.JObj?
  {
    Request(PayoutProcessed, "payout/" + p.payoutId,
            JObj([("payout_id", JStr(p.payoutId)), ("claim_id", JStr(p.claimId)), ("policy_id", JStr(p.policyId)),
                  ("amount", JNum(p.amount)), ("transaction_id", JStr(p.transactionId)), ("payment_method", JStr("ACH")),
                  ("status", JStr("completed")), ("initiated_at", JStr(Str(p.initiatedAt))),
                  ("completed_at", JStr(Str(p.completedAt)))]))
  }

  /** The `payout.processed` calls, one per payout in order. */
  function PayoutRequests(ps: seq<PayoutRecord>): (qs: seq<Request>)
    ensures |qs| == |ps| && forall k :: 0 <= k < |ps| ==> qs[k] == PayoutRequest(ps[k])
  {
    seq(|ps|, k requires 0 <= k < |ps| => PayoutRequest(ps[k]))
  }

  /** Step 7: pay every approved claim and publish one `payout.processed` event per payout. */
  method PayAndPublish(claims: seq<ClaimRecord>, draws: nat -> PayoutDraw, client: NotebookEventGridClient,
                       uuidFor: int -> string, now: string, dumps: Json -> string, failures: int -> Option<string>)
    returns (payouts: seq<PayoutRecord>, total: real)
    modifies client
    ensures payouts == PaidBy(PayWith(draws), Approved(claims)) && total == Total(Approved(claims))
    ensures client.auditLog == old(client.auditLog) + RemoteAudits(old(client.counter), PayoutRequests(payouts), uuidFor, now, dumps, failures)
  {
    payouts, total := ProcessPayouts(Approved(claims), PayWith(draws));
    client.PublishAll(PayoutRequests(payouts), uuidFor, now, dumps, failures);
  }
}
