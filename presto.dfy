/** PRESTO (`shared/presto.py`), the outage simulator: the deterministic part of its
    generators once every random draw is a parameter. A `randint(a, b)` draw is the number
    the random source returned (held into the range), a `choice` draw the index it picked
    (held into the list), and the `random()`, `lognormvariate` and `gauss` draws are
    reals. */
module Presto {
  import opened Wrappers
  import opened Text
  import opened Clock
  import opened Sorting

  /** `random.randint(a, b)` for the draw `d`. */
  function RandInt(a: int, b: int, d: int): (r: int)
    requires a <= b
    ensures a <= r <= b
    ensures a <= d <= b ==> r == d
  {
    if d < a then a else if d > b then b else d
  }

  /** Python's `int(x)` on a float: truncation toward zero. */
  function Trunc(x: real): (r: int)
    ensures x >= 0.0 ==> r as real <= x < r as real + 1.0
    ensures x < 0.0 ==> r as real - 1.0 < x <= r as real
  {
    if x >= 0.0 then x.Floor else -((-x).Floor)
  }

  /** `max(lo, min(x, hi))`. */
  function Clamp(lo: int, hi: int, x: int): (r: int)
    ensures lo <= hi ==> lo <= r <= hi
    ensures lo <= x <= hi ==> r == x
  {
    var m := if x < hi then x else hi;
    if lo > m then lo else m
  }

  /** `OutageSimulationConfig`. */
  datatype SimConfig = SimConfig(
    baseOutageRate: real, weatherMultiplier: real, peakStart: int, peakEnd: int,
    seasonalVariance: real, minDuration: int, maxDuration: int, minCustomers: int, maxCustomers: int)

  /** The dataclass defaults. */
  const DefaultConfig: SimConfig := SimConfig(0.05, 3.0, 16, 20, 1.5, 15, 480, 100, 50000)

  /** The ranges `randint` draws from are not empty. */
  predicate WellFormed(cfg: SimConfig) {
    cfg.minDuration <= cfg.maxDuration && cfg.minCustomers <= cfg.maxCustomers
  }

  lemma DefaultConfigWellFormed()
    ensures WellFormed(DefaultConfig)
  {
  }

  /** `timestamp.hour` inside the inclusive peak window: the time of day lies from the
      start of the first peak hour to the end of the last. */
  predicate IsPeakHour(cfg: SimConfig, t: Instant): (b: bool)
    ensures b <==> cfg.peakStart * SecondsPerHour <= t % SecondsPerDay < (cfg.peakEnd + 1) * SecondsPerHour
  {
    cfg.peakStart <= Hour(t) <= cfg.peakEnd
  }

  /** With the default window, an instant is at peak exactly when its time of day lies
      between 16:00:00 and 20:59:59. */
  lemma PeakHourWindow(t: Instant)
    ensures IsPeakHour(DefaultConfig, t) <==> 16 * 3600 <= t % SecondsPerDay < 21 * 3600
  {
    var h := Hour(t);
    assert h == t % SecondsPerDay / SecondsPerHour;
  }

  /** `_get_seasonal_factor`: the seasonal variance in June, July, August, December, January
      and February, and 1.0 in the other months. */
  function SeasonalFactor(cfg: SimConfig, t: Instant): (f: real)
    ensures Month(t) in {6, 7, 8, 12, 1, 2} ==> f == cfg.seasonalVariance
    ensures Month(t) !in {6, 7, 8, 12, 1, 2} ==> f == 1.0
  {
    if Month(t) in {6, 7, 8, 12, 1, 2} then cfg.seasonalVariance else 1.0
  }

  /** A `weather_severity` argument: one of the four names the tables know, or any other
      string. */
  datatype Severity = Normal | Moderate | Severe | Extreme | Other(name: string)

  function SeverityOf(s: string): (w: Severity)
    ensures w.Other? ==> w.name == s
  {
    if s == "normal" then Normal
    else if s == "moderate" then Moderate
    else if s == "severe" then Severe
    else if s == "extreme" then Extreme
    else Other(s)
  }

  function SeverityName(w: Severity): string {
    match w
    case Normal => "normal"
    case Moderate => "moderate"
    case Severe => "severe"
    case Extreme => "extreme"
    case Other(name) => name
  }

  /** Reading a severity keeps the string it was given. */
  lemma SeverityNameOf(s: string)
    ensures SeverityName(SeverityOf(s)) == s
  {
  }

  /** The duration multiplier of a weather severity; any other name counts as 1.0. */
  function DurationMultiplier(w: Severity): (m: real)
    ensures m in {0.5, 1.0, 1.5, 2.0}
    ensures w.Other? ==> m == 1.0
  {
    match w
    case Normal => 0.5
    case Moderate => 1.0
    case Severe => 1.5
    case Extreme => 2.0
    case Other(_) => 1.0
  }

  /** The affected-customer multiplier of a weather severity; any other name counts as 1.0. */
  function CustomerMultiplier(w: Severity): (m: real)
    ensures m in {0.3, 0.7, 1.0, 1.2, 2.0}
    ensures w.Other? ==> m == 1.0
  {
    match w
    case Normal => 0.3
    case Moderate => 0.7
    case Severe => 1.2
    case Extreme => 2.0
    case Other(_) => 1.0
  }

  /** The severities ordered from mildest to worst scale durations and customer counts up. */
  lemma MultipliersOrdered()
    ensures DurationMultiplier(Normal) < DurationMultiplier(Moderate) < DurationMultiplier(Severe) < DurationMultiplier(Extreme)
    ensures CustomerMultiplier(Normal) < CustomerMultiplier(Moderate) < CustomerMultiplier(Severe) < CustomerMultiplier(Extreme)
  {
  }

  /** `_calculate_duration(weather_severity)` for the `randint` draw `base` and the
      log-normal factor `noise`. */
  function Duration(cfg: SimConfig, severity: Severity, base: nat, noise: real): (d: int)
    requires WellFormed(cfg)
    ensures cfg.minDuration <= d <= cfg.maxDuration
  {
    var b := RandInt(cfg.minDuration, cfg.maxDuration, base);
    var scaled := Trunc(b as real * DurationMultiplier(severity));
    Clamp(cfg.minDuration, cfg.maxDuration, Trunc(scaled as real * noise))
  }

  /** `_calculate_affected_customers(timestamp, weather_severity, location)` for the
      `randint` draw `base` and the log-normal factor `noise`. */
  function AffectedCustomers(cfg: SimConfig, t: Instant, severity: Severity, base: nat, noise: real): (c: int)
    requires WellFormed(cfg)
    ensures cfg.minCustomers <= c <= cfg.maxCustomers
  {
    var b0 := RandInt(cfg.minCustomers, cfg.maxCustomers, base);
    var b := if IsPeakHour(cfg, t) then Trunc(b0 as real * 1.3) else b0;
    var scaled := Trunc(b as real * CustomerMultiplier(severity));
    Clamp(cfg.minCustomers, cfg.maxCustomers, Trunc(scaled as real * noise))
  }

  /** Without noise (a factor of 1) a moderate outage lasts exactly the drawn base. */
  lemma ModerateDurationIsBase(cfg: SimConfig, base: nat)
    requires WellFormed(cfg)
    ensures Duration(cfg, Moderate, base, 1.0) == RandInt(cfg.minDuration, cfg.maxDuration, base)
  {
    var b := RandInt(cfg.minDuration, cfg.maxDuration, base);
    assert Trunc(b as real * 1.0) == b;
  }

  /** The cause table of `PRESTO.__init__`, and the weather table `_select_cause` uses
      for severe and extreme weather. */
  const StandardCauses: seq<(string, real)> := [
    ("storm_damage", 0.35), ("equipment_failure", 0.25), ("tree_contact", 0.15),
    ("vehicle_accident", 0.08), ("animal_contact", 0.07), ("planned_maintenance", 0.05),
    ("earthquake", 0.02), ("heat_overload", 0.02), ("unknown", 0.01)]
  const WeatherCauses: seq<(string, real)> := [
    ("storm_damage", 0.60), ("tree_contact", 0.20), ("equipment_failure", 0.15), ("unknown", 0.05)]

  function CauseTable(severity: Severity): (t: seq<(string, real)>)
    ensures t == WeatherCauses || t == StandardCauses
  {
    if severity == Severe || severity == Extreme then WeatherCauses else StandardCauses
  }

  /** The sum of the first `k` weights. */
  function Cumulative(table: seq<(string, real)>, k: int): real
    requires 0 <= k <= |table|
  {
    if k == 0 then 0.0 else Cumulative(table, k - 1) + table[k - 1].1
  }

  /** The weighted pick from position `i` on, with `acc` the weight before it: the first
      cause whose cumulative weight reaches `r`, or "unknown" past the end. */
  function ChosenFrom(table: seq<(string, real)>, r: real, i: nat, acc: real): string
    decreases |table| - i
  {
    if i >= |table| then "unknown"
    else if r <= acc + table[i].1 then table[i].0
    else ChosenFrom(table, r, i + 1, acc + table[i].1)
  }

  function ChosenCause(table: seq<(string, real)>, r: real): string {
    ChosenFrom(table, r, 0, 0.0)
  }

  /** The cumulative-weight scan of `_select_cause` over `causes` for the draw `r`. */
  method PickCause(causes: seq<(string, real)>, r: real) returns (cause: string)
    ensures cause == ChosenCause(causes, r)
  {
    var cumulative := 0.0;
    var i := 0;
    while i < |causes|
      invariant 0 <= i <= |causes|
      invariant ChosenFrom(causes, r, i, cumulative) == ChosenCause(causes, r)
    {
      cumulative := cumulative + causes[i].1;
      if r <= cumulative {
        return causes[i].0;
      }
      i := i + 1;
    }
    return "unknown";
  }

  /** `_select_cause(weather_severity)` for the draw `r` of `random.random()`. */
  method SelectCause(severity: Severity, r: real) returns (cause: string)
    ensures cause == ChosenCause(CauseTable(severity), r)
  {
    cause := PickCause(CauseTable(severity), r);
  }

  /** The pick lands on the first cause whose cumulative weight reaches the draw. */
  lemma {:induction false} ChosenFromFirstReaching(table: seq<(string, real)>, r: real, i: nat, k: nat)
    requires i <= k < |table|
    requires r <= Cumulative(table, k + 1)
    requires forall m :: i < m <= k ==> r > Cumulative(table, m)
    ensures ChosenFrom(table, r, i, Cumulative(table, i)) == table[k].0
    decreases k - i
  {
    if i < k {
      assert r > Cumulative(table, i + 1);
      ChosenFromFirstReaching(table, r, i + 1, k);
    }
  }

  /** Both tables' weights add up to one. */
  lemma WeightsSumToOne()
    ensures Cumulative(StandardCauses, |StandardCauses|) == 1.0
    ensures Cumulative(WeatherCauses, |WeatherCauses|) == 1.0
  {
    assert Cumulative(WeatherCauses, 4) == 1.0 by {
      assert Cumulative(WeatherCauses, 1) == 0.60;
      assert Cumulative(WeatherCauses, 2) == 0.80;
      assert Cumulative(WeatherCauses, 3) == 0.95;
    }
    assert Cumulative(StandardCauses, 9) == 1.0 by {
      assert Cumulative(StandardCauses, 3) == 0.75;
      assert Cumulative(StandardCauses, 6) == 0.95;
    }
  }

  /** A draw of `random()` (in [0, 1)) always lands on a listed cause: the loop never
      falls through to its final "unknown". */
  lemma {:induction false} ChosenIsListed(table: seq<(string, real)>, r: real, i: nat)
    requires i <= |table|
    requires r <= Cumulative(table, |table|)
    ensures i < |table| && r > Cumulative(table, i) ==>
      exists k :: i <= k < |table| && ChosenFrom(table, r, i, Cumulative(table, i)) == table[k].0
    ensures i < |table| && r <= Cumulative(table, i + 1) ==>
      ChosenFrom(table, r, i, Cumulative(table, i)) == table[i].0
    decreases |table| - i
  {
    if i < |table| && r > Cumulative(table, i + 1) {
      ChosenIsListed(table, r, i + 1);
      if i + 1 == |table| {
        assert false;
      }
    }
  }

  /** With a draw in [0, 1) the cause is one of the table's names. */
  lemma SelectedCauseIsListed(severity: Severity, r: real)
    requires 0.0 <= r < 1.0
    ensures exists k :: 0 <= k < |CauseTable(severity)| && ChosenCause(CauseTable(severity), r) == CauseTable(severity)[k].0
  {
    WeightsSumToOne();
    ChosenIsListed(CauseTable(severity), r, 0);
  }

  /** Low draws pick the heaviest cause: storm damage below 0.35 in normal weather and
      below 0.60 in severe weather. */
  lemma LowDrawIsStormDamage(severity: Severity, r: real)
    requires r <= (if severity == Severe || severity == Extreme then 0.60 else 0.35)
    ensures ChosenCause(CauseTable(severity), r) == "storm_damage"
  {
  }

  /** A city of `PRESTO.cities`. */
  datatype City = City(name: string, state: string, zip: string, lat: real, lon: real, region: string)

  const Cities: seq<City> := [
    City("Seattle", "WA", "98101", 47.6062, -122.3321, "Pacific Northwest"),
    City("Portland", "OR", "97201", 45.5152, -122.6784, "Pacific Northwest"),
    City("San Francisco", "CA", "94111", 37.7935, -122.3989, "California"),
    City("Los Angeles", "CA", "90012", 34.0522, -118.2437, "California"),
    City("San Diego", "CA", "92101", 32.7157, -117.1611, "California"),
    City("Phoenix", "AZ", "85001", 33.4484, -112.0740, "Southwest"),
    City("Las Vegas", "NV", "89101", 36.1699, -115.1398, "Southwest"),
    City("Denver", "CO", "80202", 39.7392, -104.9903, "Mountain"),
    City("Chicago", "IL", "60601", 41.8781, -87.6298, "Midwest"),
    City("Detroit", "MI", "48226", 42.3314, -83.0458, "Midwest"),
    City("Atlanta", "GA", "30303", 33.7490, -84.3880, "South"),
    City("Miami", "FL", "33101", 25.7617, -80.1918, "South"),
    City("Houston", "TX", "77002", 29.7604, -95.3698, "Texas"),
    City("Dallas", "TX", "75201", 32.7767, -96.7970, "Texas"),
    City("Austin", "TX", "78701", 30.2672, -97.7431, "Texas"),
    City("New York", "NY", "10022", 40.7614, -73.9776, "Northeast"),
    City("Boston", "MA", "02101", 42.3601, -71.0589, "Northeast"),
    City("Philadelphia", "PA", "19103", 39.9526, -75.1652, "Mid-Atlantic"),
    City("Washington", "DC", "20001", 38.9072, -77.0369, "Mid-Atlantic")]

  /** `PRESTO.utilities`, region by region in the dictionary's order. */
  const Utilities: seq<(string, seq<string>)> := [
    ("Pacific Northwest", ["Seattle City Light", "Portland General Electric", "Puget Sound Energy", "Tacoma Power"]),
    ("California", ["Pacific Gas & Electric (PG&E)", "Southern California Edison", "San Diego Gas & Electric", "Los Angeles Department of Water and Power"]),
    ("Southwest", ["Arizona Public Service", "Salt River Project", "NV Energy", "El Paso Electric"]),
    ("Mountain", ["Xcel Energy", "Black Hills Energy", "Rocky Mountain Power"]),
    ("Midwest", ["ComEd", "DTE Energy", "Duke Energy Ohio", "Consumers Energy"]),
    ("South", ["Georgia Power", "Duke Energy Carolinas", "Florida Power & Light", "Entergy"]),
    ("Texas", ["Oncor Electric Delivery", "CenterPoint Energy", "AEP Texas", "Texas-New Mexico Power"]),
    ("Northeast", ["Con Edison", "National Grid", "PSEG", "Eversource Energy"]),
    ("Mid-Atlantic", ["PECO", "BGE", "Pepco", "Dominion Energy"])]

  /** `self.utilities.get(region, ["Local Utility"])`. */
  function UtilitiesIn(table: seq<(string, seq<string>)>, region: string): (u: seq<string>)
    ensures (forall k :: 0 <= k < |table| ==> table[k].1 != []) ==> u != []
  {
    if table == [] then ["Local Utility"]
    else if table[0].0 == region then table[0].1
    else UtilitiesIn(table[1..], region)
  }

  /** The lookup finds the first entry of the region, and the default list when there is
      none. */
  lemma {:induction false} UtilitiesInCases(table: seq<(string, seq<string>)>, region: string)
    ensures (forall k :: 0 <= k < |table| ==> table[k].0 != region) ==> UtilitiesIn(table, region) == ["Local Utility"]
    ensures forall k :: 0 <= k < |table| && table[k].0 == region && (forall m :: 0 <= m < k ==> table[m].0 != region)
              ==> UtilitiesIn(table, region) == table[k].1
  {
    if table != [] {
      UtilitiesInCases(table[1..], region);
      forall k | 0 <= k < |table| && table[k].0 == region && (forall m :: 0 <= m < k ==> table[m].0 != region)
        ensures UtilitiesIn(table, region) == table[k].1
      {
        if k > 0 {
          assert table[0].0 != region;
          assert table[1..][k - 1] == table[k];
          forall m | 0 <= m < k - 1 ensures table[1..][m].0 != region {
            assert table[1..][m] == table[m + 1];
          }
        }
      }
    }
  }

  /** `random.choice(xs)` for the draw `d`. */
  function Choice<T>(xs: seq<T>, d: nat): (x: T)
    requires xs != []
    ensures x in xs
    ensures d < |xs| ==> x == xs[d]
  {
    if d < |xs| then xs[d] else xs[|xs| - 1]
  }

  /** The state of a `PRESTO` object: its configuration, its cities and its utilities. */
  datatype Simulator = Simulator(config: SimConfig, cities: seq<City>, utilities: seq<(string, seq<string>)>)

  /** What the generators need of the object: the `randint` ranges are not empty, every
      `random.choice` has something to choose from, and every utility region has a city
      for the regional spread. */
  predicate Valid(sim: Simulator) {
    WellFormed(sim.config) && sim.cities != [] && sim.utilities != []
    && (forall k :: 0 <= k < |sim.utilities| ==> sim.utilities[k].1 != [])
  }

  /** Every utility region has a city, so the regional spread never draws from an empty
      list. */
  predicate RegionsCovered(sim: Simulator) {
    forall k :: 0 <= k < |sim.utilities| ==> HasCity(sim.cities, sim.utilities[k].0)
  }

  predicate HasCity(cities: seq<City>, region: string) {
    exists c :: c in cities && c.region == region
  }

  /** `PRESTO()` with the default configuration. */
  const DefaultSimulator: Simulator := Simulator(DefaultConfig, Cities, Utilities)

  /** `[c for c in cs if c["region"] == region]`. */
  function CitiesIn(cs: seq<City>, region: string): (r: seq<City>)
    ensures forall c :: c in r ==> c in cs && c.region == region
    ensures forall k :: 0 <= k < |cs| && cs[k].region == region ==> cs[k] in r
  {
    if cs == [] then []
    else
      assert cs == [cs[0]] + cs[1..];
      (if cs[0].region == region then [cs[0]] else []) + CitiesIn(cs[1..], region)
  }

  /** A region with a city has a non-empty city list. */
  lemma CitiesInNonEmpty(cities: seq<City>, region: string)
    requires HasCity(cities, region)
    ensures CitiesIn(cities, region) != []
  {
    var c :| c in cities && c.region == region;
    var k :| 0 <= k < |cities| && cities[k] == c;
    assert cities[k] in CitiesIn(cities, region);
  }

  /** The default object meets what the generators need: in particular every region of
      the utility table has at least one city, so the regional spread never draws from an
      empty list. */
  lemma DefaultSimulatorValid()
    ensures Valid(DefaultSimulator) && RegionsCovered(DefaultSimulator)
  {
    forall k | 0 <= k < |Utilities|
      ensures Utilities[k].1 != [] && HasCity(Cities, Utilities[k].0)
    {
      var w := if k == 0 then 0 else if k == 1 then 2 else if k == 2 then 5 else if k == 3 then 7
        else if k == 4 then 8 else if k == 5 then 10 else if k == 6 then 12 else if k == 7 then 15 else 17;
      assert Cities[w].region == Utilities[k].0;
    }
  }

  /** The draws one `generate_outage` call consumes. */
  datatype OutageDraws = OutageDraws(
    city: nat, utility: nat, durationBase: nat, durationNoise: real,
    customerBase: nat, customerNoise: real, cause: real, suffix: nat)

  /** The dictionary `generate_outage` returns. The fields computed from the start time
      alone (`event_id` and `simulation_params`) are the functions `EventId` and
      `SimulationParams` of the record, which keeps the four-digit number of the id. */
  datatype SimOutage = SimOutage(
    idNumber: int, utilityName: string, location: City, zipCode: string,
    latitude: real, longitude: real, city: string, state: string, affectedCustomers: int,
    outageStart: Instant, outageEnd: Instant, durationMinutes: int, cause: string,
    reportedCause: string, status: string, dataSource: string, weatherSeverity: Severity)

  /** `event_id`: "PRESTO-", the state, "-", the start's time stamp, "-", and the four-digit
      number. */
  function EventId(o: SimOutage): (id: string)
    ensures StartsWith(id, "PRESTO-" + o.state + "-" + Stamp(o.outageStart) + "-")
    ensures var n := |"PRESTO-" + o.state + "-" + Stamp(o.outageStart) + "-"|;
      1000 <= o.idNumber <= 9999 ==>
        |id| == n + 4 && id[n..] == IntToString(o.idNumber) && AllDigits(id[n..])
  {
    var prefix := "PRESTO-" + o.state + "-" + Stamp(o.outageStart) + "-";
    var id := prefix + IntToString(o.idNumber);
    assert id[..|prefix|] == prefix;
    assert id[|prefix|..] == IntToString(o.idNumber);
    if 1000 <= o.idNumber <= 9999 then
      FourDigits(o.idNumber);
      id
    else id
  }

  /** `simulation_params`. */
  datatype SimParams = SimParams(weatherSeverity: Severity, peakHour: bool, seasonalFactor: real)

  function SimulationParams(cfg: SimConfig, o: SimOutage): (p: SimParams)
    ensures p.weatherSeverity == o.weatherSeverity
    ensures p.peakHour <==> cfg.peakStart <= Hour(o.outageStart) <= cfg.peakEnd
    ensures p.seasonalFactor == SeasonalFactor(cfg, o.outageStart)
  {
    SimParams(o.weatherSeverity, IsPeakHour(cfg, o.outageStart), SeasonalFactor(cfg, o.outageStart))
  }

  /** `generate_outage(location, timestamp, weather_severity)`: `None` arguments take a
      random city and the clock reading `now`. */
  function GenerateOutage(sim: Simulator, location: Option<City>, timestamp: Option<Instant>, now: Instant,
                          severity: Severity, d: OutageDraws): (o: SimOutage)
    requires Valid(sim)
    ensures location.Some? ==> o.location == location.value
    ensures location.None? ==> o.location in sim.cities
    ensures o.outageStart == (if timestamp.Some? then timestamp.value else now)
    ensures o.outageEnd == o.outageStart + o.durationMinutes * SecondsPerMinute
    ensures sim.config.minDuration <= o.durationMinutes <= sim.config.maxDuration
    ensures sim.config.minCustomers <= o.affectedCustomers <= sim.config.maxCustomers
    ensures o.zipCode == o.location.zip && o.latitude == o.location.lat && o.longitude == o.location.lon
    ensures o.city == o.location.name && o.state == o.location.state
    ensures o.utilityName in UtilitiesIn(sim.utilities, o.location.region)
    ensures o.status == "resolved" && o.dataSource == "PRESTO" && o.reportedCause == o.cause
    ensures o.weatherSeverity == severity && 1000 <= o.idNumber <= 9999
  {
    var loc := if location.Some? then location.value else Choice(sim.cities, d.city);
    var utility := Choice(UtilitiesIn(sim.utilities, loc.region), d.utility);
    var ts := if timestamp.Some? then timestamp.value else now;
    var duration := Duration(sim.config, severity, d.durationBase, d.durationNoise);
    var customers := AffectedCustomers(sim.config, ts, severity, d.customerBase, d.customerNoise);
    var cause := ChosenCause(CauseTable(severity), d.cause);
    SimOutage(RandInt(1000, 9999, d.suffix), utility, loc, loc.zip, loc.lat, loc.lon, loc.name, loc.state,
              customers, ts, ts + duration * SecondsPerMinute, duration, cause, cause, "resolved", "PRESTO",
              severity)
  }

  /** One entry of the `scenarios` table of `generate_outage_scenario`. */
  datatype Scenario = Scenario(countLo: int, countHi: int, weather: Severity, spreadHours: int, spread: Spread)

  /** `geographic_spread`: "random", "clustered", or anything else (regional). */
  datatype Spread = RandomCities | Clustered | Regional

  const Scenarios: seq<(string, Scenario)> := [
    ("normal_day", Scenario(2, 5, Normal, 24, RandomCities)),
    ("severe_weather", Scenario(10, 20, Severe, 6, Clustered)),
    ("heat_wave", Scenario(5, 15, Moderate, 8, Regional)),
    ("winter_storm", Scenario(15, 30, Extreme, 12, Regional)),
    ("equipment_failure", Scenario(3, 8, Normal, 4, Clustered))]

  /** `scenarios.get(scenario_type, scenarios["normal_day"])`. */
  function ScenarioFor(name: string): (s: Scenario)
    ensures 0 <= s.countLo <= s.countHi && s.spreadHours >= 0
  {
    if name == "normal_day" then Scenarios[0].1
    else if name == "severe_weather" then Scenarios[1].1
    else if name == "heat_wave" then Scenarios[2].1
    else if name == "winter_storm" then Scenarios[3].1
    else if name == "equipment_failure" then Scenarios[4].1
    else Scenarios[0].1
  }

  /** An unknown scenario name gets the "normal_day" entry. */
  lemma UnknownScenarioIsNormalDay(name: string)
    requires name !in ["normal_day", "severe_weather", "heat_wave", "winter_storm", "equipment_failure"]
    ensures ScenarioFor(name) == Scenario(2, 5, Normal, 24, RandomCities)
  {
  }

  /** The draws one `generate_outage_scenario` call consumes: the count, the city or region
      pick, and for the i-th outage its location pick, its time offset and its outage
      draws. */
  datatype ScenarioDraws = ScenarioDraws(
    count: nat, basePick: nat, locationPick: nat -> nat, offset: nat -> nat, outage: nat -> OutageDraws)

  /** The region a regional scenario picks. */
  function ScenarioRegion(sim: Simulator, d: ScenarioDraws): (region: string)
    requires Valid(sim) && RegionsCovered(sim)
    ensures HasCity(sim.cities, region)
  {
    var k := d.basePick % |sim.utilities|;
    sim.utilities[k].0
  }

  /** The location of the scenario's i-th outage: a random city each, one random city for
      all, or a random city each of one random region. */
  function ScenarioLocation(sim: Simulator, s: Scenario, d: ScenarioDraws, i: nat): (c: City)
    requires Valid(sim) && RegionsCovered(sim)
    ensures c in sim.cities
    ensures s.spread == Clustered ==> c == Choice(sim.cities, d.basePick)
    ensures s.spread == Regional ==> c.region == ScenarioRegion(sim, d)
  {
    match s.spread
    case RandomCities => Choice(sim.cities, d.locationPick(i))
    case Clustered => Choice(sim.cities, d.basePick)
    case Regional =>
      CitiesInNonEmpty(sim.cities, ScenarioRegion(sim, d)); Choice(CitiesIn(sim.cities, ScenarioRegion(sim, d)), d.locationPick(i))
  }

  /** The scenario's i-th outage, started `offset(i)` minutes (at most the spread) after
      `base`. */
  function ScenarioOutage(sim: Simulator, s: Scenario, base: Instant, d: ScenarioDraws, i: nat): (o: SimOutage)
    requires Valid(sim) && RegionsCovered(sim) && s.spreadHours >= 0
    ensures o.location == ScenarioLocation(sim, s, d, i) && o.weatherSeverity == s.weather
    ensures base <= o.outageStart <= base + s.spreadHours * SecondsPerHour
  {
    var offset := RandInt(0, s.spreadHours * 60, d.offset(i));
    GenerateOutage(sim, Some(ScenarioLocation(sim, s, d, i)), Some(base + offset * SecondsPerMinute), base, s.weather, d.outage(i))
  }

  /** The outage generator of a scenario: the i-th call produces its i-th outage. */
  function ScenarioGen(sim: Simulator, s: Scenario, base: Instant, d: ScenarioDraws): (gen: nat -> SimOutage)
    requires Valid(sim) && RegionsCovered(sim) && s.spreadHours >= 0
    ensures forall i: nat :: gen(i) == ScenarioOutage(sim, s, base, d, i)
  {
    (i: nat) => ScenarioOutage(sim, s, base, d, i)
  }

  /** The first `n` outages of a generator, in generation order. */
  function Series(gen: nat -> SimOutage, n: nat): (os: seq<SimOutage>)
    ensures |os| == n
  {
    if n == 0 then [] else Series(gen, n - 1) + [gen(n - 1)]
  }

  /** The i-th element of a series is the i-th generated outage. */
  lemma {:induction false} SeriesAt(gen: nat -> SimOutage, n: nat, i: nat)
    requires i < n
    ensures Series(gen, n)[i] == gen(i)
  {
    if i < n - 1 {
      SeriesAt(gen, n - 1, i);
    }
  }

  /** `for _ in range(n): outages.append(<generate the next outage>)`. */
  method AppendGenerated(gen: nat -> SimOutage, n: nat, outages: seq<SimOutage>) returns (after: seq<SimOutage>)
    ensures after == outages + Series(gen, n)
  {
    after := outages;
    var i := 0;
    while i < n
      invariant 0 <= i <= n
      invariant after == outages + Series(gen, i)
    {
      AppendAssoc(outages, Series(gen, i), [gen(i)]);
      after := after + [gen(i)];
      i := i + 1;
    }
  }

  /** The outage loop of `generate_outage_scenario`: `n` outages of scenario `s`. */
  method ScenarioLoop(sim: Simulator, s: Scenario, n: nat, now: Instant, d: ScenarioDraws)
    returns (outages: seq<SimOutage>)
    requires Valid(sim) && RegionsCovered(sim) && s.spreadHours >= 0
    ensures outages == Series(ScenarioGen(sim, s, now, d), n)
  {
    outages := AppendGenerated(ScenarioGen(sim, s, now, d), n, []);
    assert [] + Series(ScenarioGen(sim, s, now, d), n) == Series(ScenarioGen(sim, s, now, d), n);
  }

  /** `generate_outage_scenario(scenario_type)`, with `now` the clock reading. */
  method GenerateScenario(sim: Simulator, scenarioType: string, now: Instant, d: ScenarioDraws)
    returns (outages: seq<SimOutage>)
    requires Valid(sim) && RegionsCovered(sim)
    ensures var s := ScenarioFor(scenarioType);
      outages == Series(ScenarioGen(sim, s, now, d), RandInt(s.countLo, s.countHi, d.count))
  {
    var s := ScenarioFor(scenarioType);
    var n := RandInt(s.countLo, s.countHi, d.count);
    outages := ScenarioLoop(sim, s, n, now, d);
  }

  /** A scenario has between its table's bounds of outages, each of the scenario's weather
      and starting within its time spread of `now`; an unknown scenario type behaves as
      "normal_day". */
  lemma ScenarioProperties(sim: Simulator, scenarioType: string, now: Instant, d: ScenarioDraws, i: nat)
    requires Valid(sim) && RegionsCovered(sim)
    ensures var s := ScenarioFor(scenarioType);
      var n := RandInt(s.countLo, s.countHi, d.count);
      var os := Series(ScenarioGen(sim, s, now, d), n);
      s.countLo <= n <= s.countHi
      && (i < n ==> |os| == n && os[i].weatherSeverity == s.weather && os[i].location in sim.cities
                    && now <= os[i].outageStart <= now + s.spreadHours * SecondsPerHour)
  {
    var s := ScenarioFor(scenarioType);
    var n := RandInt(s.countLo, s.countHi, d.count);
    if i < n {
      SeriesAt(ScenarioGen(sim, s, now, d), n, i);
    }
  }

  /** A clustered scenario puts every outage in one city, and a regional one keeps every
      outage in one region. */
  lemma ScenarioSpread(sim: Simulator, s: Scenario, base: Instant, d: ScenarioDraws, i: nat, j: nat)
    requires Valid(sim) && RegionsCovered(sim) && s.spreadHours >= 0
    ensures s.spread == Clustered ==> ScenarioOutage(sim, s, base, d, i).city == ScenarioOutage(sim, s, base, d, j).city
    ensures s.spread != RandomCities ==>
      ScenarioOutage(sim, s, base, d, i).location.region == ScenarioOutage(sim, s, base, d, j).location.region
  {
  }

  /** `random.choices(["normal", "moderate", "severe", "extreme"], weights=[0.70, 0.20,
      0.08, 0.02])[0]` for the draw `r` of `random()`: the first name whose cumulative
      weight exceeds `r` times the total, the last name when none does. */
  function WeatherChoice(r: real): (w: Severity)
    ensures !w.Other?
    ensures w == Normal <==> r < 0.70
    ensures w == Extreme <==> r >= 0.98
  {
    if r < 0.70 then Normal
    else if r < 0.90 then Moderate
    else if r < 0.98 then Severe
    else Extreme
  }

  /** The draws of one outage of the continuous simulation. */
  datatype SlotDraws = SlotDraws(hour: nat, minute: nat, weather: real, outage: OutageDraws)

  /** The draws of `generate_continuous_simulation`: for each day the Gaussian count
      `int(random.gauss(outages_per_day, 2))`, and the draws of the j-th outage of each
      day. */
  datatype ContinuousDraws = ContinuousDraws(perDay: nat -> int, slot: (nat, nat) -> SlotDraws)

  /** The number of outages of a day: `max(1, int(random.gauss(outages_per_day, 2)))` for
      the drawn `int(...)`. */
  function DayCount(drawn: int): (n: nat)
    ensures n >= 1
    ensures drawn >= 1 ==> n == drawn
  {
    if drawn < 1 then 1 else drawn
  }

  /** Midnight-relative start of day `day` of a simulation started at `start`. */
  function DayStart(start: Instant, day: int): Instant {
    start + day * SecondsPerDay
  }

  /** The start of a simulation of `days` days ending at `now`:
      `datetime.now() - timedelta(days=duration_days)`. */
  function WindowStart(now: Instant, days: nat): (start: Instant)
    ensures DayStart(start, days) == now
  {
    now - days * SecondsPerDay
  }

  /** The j-th outage of day `day`, of a random city, started at the drawn hour and
      minute of that day. */
  function SlotOutage(sim: Simulator, start: Instant, d: ContinuousDraws, day: nat, j: nat): (o: SimOutage)
    requires Valid(sim)
    ensures DayStart(start, day) <= o.outageStart < DayStart(start, day + 1)
    ensures o.location in sim.cities && o.status == "resolved"
  {
    var sd := d.slot(day, j);
    var t := DayStart(start, day) + RandInt(0, 23, sd.hour) * SecondsPerHour + RandInt(0, 59, sd.minute) * SecondsPerMinute;
    GenerateOutage(sim, None, Some(t), t, WeatherChoice(sd.weather), sd.outage)
  }

  /** The outage generator of the continuous simulation: call (day, j) produces the j-th
      outage of that day. */
  function Slots(sim: Simulator, start: Instant, d: ContinuousDraws): (slot: (nat, nat) -> SimOutage)
    requires Valid(sim)
    ensures forall day: nat, j: nat :: slot(day, j) == SlotOutage(sim, start, d, day, j)
  {
    (day: nat, j: nat) => SlotOutage(sim, start, d, day, j)
  }

  /** The generator of one day's outages. */
  function DaySlots(slot: (nat, nat) -> SimOutage, day: nat): (gen: nat -> SimOutage)
    ensures forall j: nat :: gen(j) == slot(day, j)
  {
    (j: nat) => slot(day, j)
  }

  /** The outages of the first `days` days, in generation order: day after day, the drawn
      number of outages of each. */
  function Generated(slot: (nat, nat) -> SimOutage, perDay: nat -> int, days: nat): (os: seq<SimOutage>)
  {
    if days == 0 then []
    else Generated(slot, perDay, days - 1) + Series(DaySlots(slot, days - 1), DayCount(perDay(days - 1)))
  }

  function StartOf(o: SimOutage): int {
    o.outageStart
  }

  /** The day loop of `generate_continuous_simulation`: every day in turn, its outages
      appended in generation order. */
  method SimulateDays(slot: (nat, nat) -> SimOutage, perDay: nat -> int, durationDays: nat)
    returns (outages: seq<SimOutage>)
    ensures outages == Generated(slot, perDay, durationDays)
  {
    outages := [];
    var day := 0;
    while day < durationDays
      invariant 0 <= day <= durationDays
      invariant outages == Generated(slot, perDay, day)
    {
      var n := DayCount(perDay(day));
      outages := AppendGenerated(DaySlots(slot, day), n, outages);
      day := day + 1;
    }
  }

  /** `generate_continuous_simulation(duration_days, outages_per_day)`: the days are
      simulated in turn from `duration_days` days before `now`, and the list is sorted by
      start time. */
  method GenerateContinuous(sim: Simulator, durationDays: nat, now: Instant, d: ContinuousDraws)
    returns (outages: seq<SimOutage>)
    requires Valid(sim)
    ensures outages == SortBy(Generated(Slots(sim, WindowStart(now, durationDays), d), d.perDay, durationDays), StartOf)
  {
    var all := SimulateDays(Slots(sim, WindowStart(now, durationDays), d), d.perDay, durationDays);
    outages := SortBy(all, StartOf);
  }

  /** A resolved outage starting in [lo, hi). */
  predicate Within(o: SimOutage, lo: int, hi: int) {
    lo <= o.outageStart < hi && o.status == "resolved"
  }

  /** Every slot of the continuous simulation starts on its own day. */
  ghost predicate SlotsOnTheirDays(slot: (nat, nat) -> SimOutage, start: Instant) {
    forall day: nat, j: nat :: Within(slot(day, j), DayStart(start, day), DayStart(start, day + 1))
  }

  lemma SlotsAreOnTheirDays(sim: Simulator, start: Instant, d: ContinuousDraws)
    requires Valid(sim)
    ensures SlotsOnTheirDays(Slots(sim, start, d), start)
  {
    forall day: nat, j: nat
      ensures Within(Slots(sim, start, d)(day, j), DayStart(start, day), DayStart(start, day + 1))
    {
      assert Slots(sim, start, d)(day, j) == SlotOutage(sim, start, d, day, j);
    }
  }

  /** Every outage of a series whose outages all lie in a window lies in it. */
  lemma {:induction false} SeriesWithin(gen: nat -> SimOutage, n: nat, lo: int, hi: int)
    requires forall i: nat :: i < n ==> Within(gen(i), lo, hi)
    ensures forall o :: o in Series(gen, n) ==> Within(o, lo, hi)
  {
    if n > 0 {
      SeriesWithin(gen, n - 1, lo, hi);
    }
  }

  /** Some outage of `os` starts on day `day` of a simulation started at `start`. */
  predicate HasOutageOn(os: seq<SimOutage>, start: Instant, day: nat) {
    exists o :: o in os && Within(o, DayStart(start, day), DayStart(start, day + 1))
  }

  /** At least one outage on every simulated day, and every generated outage starts inside
      the simulated window. */
  lemma {:induction false} GeneratedProperties(slot: (nat, nat) -> SimOutage, perDay: nat -> int, start: Instant, days: nat)
    requires SlotsOnTheirDays(slot, start)
    ensures |Generated(slot, perDay, days)| >= days
    ensures forall day: nat :: day < days ==> HasOutageOn(Generated(slot, perDay, days), start, day)
    ensures forall o :: o in Generated(slot, perDay, days) ==> Within(o, start, DayStart(start, days))
  {
    if days > 0 {
      GeneratedProperties(slot, perDay, start, days - 1);
      var gen := DaySlots(slot, days - 1);
      var n := DayCount(perDay(days - 1));
      var prev := Generated(slot, perDay, days - 1);
      var today := Series(gen, n);
      assert Generated(slot, perDay, days) == prev + today;
      forall i: nat | i < n
        ensures Within(gen(i), DayStart(start, days - 1), DayStart(start, days))
      {
        assert gen(i) == slot(days - 1, i);
      }
      SeriesWithin(gen, n, DayStart(start, days - 1), DayStart(start, days));
      assert DayStart(start, days - 1) <= DayStart(start, days);
      SeriesAt(gen, n, 0);
      forall day: nat | day < days
        ensures HasOutageOn(prev + today, start, day)
      {
        if day < days - 1 {
          assert HasOutageOn(prev, start, day);
          var o :| o in prev && Within(o, DayStart(start, day), DayStart(start, day + 1));
          assert o in prev + today;
        } else {
          assert today[0] in prev + today;
          assert Within(today[0], DayStart(start, day), DayStart(start, day + 1));
        }
      }
    }
  }

  /** The continuous simulation returns, ordered by start time, the outages it generated:
      at least one on every day, each inside the simulated window that ends at `now`. */
  lemma ContinuousProperties(sim: Simulator, durationDays: nat, now: Instant, d: ContinuousDraws)
    requires Valid(sim)
    ensures var start := WindowStart(now, durationDays);
      var os := SortBy(Generated(Slots(sim, start, d), d.perDay, durationDays), StartOf);
      SortedBy(os, StartOf) && |os| >= durationDays
      && (forall day: nat :: day < durationDays ==> HasOutageOn(os, start, day))
      && forall o :: o in os ==> Within(o, start, now)
  {
    var start := WindowStart(now, durationDays);
    var g := Generated(Slots(sim, start, d), d.perDay, durationDays);
    var os := SortBy(g, StartOf);
    SlotsAreOnTheirDays(sim, start, d);
    GeneratedProperties(Slots(sim, start, d), d.perDay, start, durationDays);
    forall o | o in os ensures Within(o, start, now) {
      SortByKeepsElements(g, StartOf, o);
    }
    SortKeepsDays(g, start, durationDays);
  }

  /** Sorting keeps an outage on every day that had one. */
  lemma SortKeepsDays(g: seq<SimOutage>, start: Instant, days: nat)
    requires forall day: nat :: day < days ==> HasOutageOn(g, start, day)
    ensures forall day: nat :: day < days ==> HasOutageOn(SortBy(g, StartOf), start, day)
  {
    forall day: nat | day < days ensures HasOutageOn(SortBy(g, StartOf), start, day) {
      assert HasOutageOn(g, start, day);
      var o :| o in g && Within(o, DayStart(start, day), DayStart(start, day + 1));
      SortByKeepsElements(g, StartOf, o);
    }
  }
}
