/** The Outage Monitor function (`functions/OutageMonitor`): on each timer tick it walks the
    active outages, gathers the policies each one affects (those in its zip code, merged
    with those near it), and announces the outage with the affected policy ids. */
module OutageMonitor {
  import opened Wrappers
  import opened Json
  import opened Models
  import opened EventGrid
  import opened Store

  /** The ids of a list of policy rows, in order. */
  function Ids(ps: seq<Policy>): (r: seq<string>)
    ensures |r| == |ps|
    ensures forall i :: 0 <= i < |ps| ==> r[i] == ps[i].policyId
  {
    seq(|ps|, i requires 0 <= i < |ps| => ps[i].policyId)
  }

  predicate NoDuplicates(xs: seq<string>) {
    forall i, j :: 0 <= i < j < |xs| ==> xs[i] != xs[j]
  }

  /** The distinct elements of `xs` in the order of their first occurrence: the key order
      of a Python dictionary filled from `xs`. */
  function Distinct(xs: seq<string>): (r: seq<string>)
    ensures forall x :: x in r <==> x in xs
    ensures NoDuplicates(r)
  {
    if xs == [] then []
    else
      var n := |xs| - 1;
      assert xs == xs[..n] + [xs[n]];
      var r := Distinct(xs[..n]);
      if xs[n] in r then r else r + [xs[n]]
  }

  /** `r` is the dictionary `d` after `d[p['policy_id']] = p`: the keys keep their order
      and a new key goes last; the entry of `p`'s key is `p`, every other entry is
      unchanged. */
  predicate IsPut(d: seq<Policy>, p: Policy, r: seq<Policy>) {
    && Ids(r) == (if p.policyId in Ids(d) then Ids(d) else Ids(d) + [p.policyId])
    && forall i :: 0 <= i < |r| ==>
         if r[i].policyId == p.policyId then r[i] == p else i < |d| && r[i] == d[i]
  }

  /** `d[p['policy_id']] = p` on a dictionary kept as its entries in insertion order. */
  function Put(d: seq<Policy>, p: Policy): (r: seq<Policy>)
    requires NoDuplicates(Ids(d))
    ensures IsPut(d, p, r)
  {
    if d == [] then [p]
    else if d[0].policyId == p.policyId then
      PutFront(d, p);
      [p] + d[1..]
    else
      PutTail(d, p);
      var rest := Put(d[1..], p);
      PutCons(d, p, rest);
      [d[0]] + rest
  }

  lemma PutFront(d: seq<Policy>, p: Policy)
    requires NoDuplicates(Ids(d)) && d != [] && d[0].policyId == p.policyId
    ensures IsPut(d, p, [p] + d[1..])
  {
    assert p.policyId !in Ids(d[1..]) by {
      forall i | 0 <= i < |d[1..]| ensures Ids(d[1..])[i] != p.policyId {
        assert Ids(d)[i + 1] == d[1..][i].policyId;
      }
    }
    IdsCons(p, d[1..]);
    IdsCons(d[0], d[1..]);
    assert d == [d[0]] + d[1..];
    var r := [p] + d[1..];
    assert Ids(r) == Ids(d);
    forall i | 0 <= i < |r| ensures if r[i].policyId == p.policyId then r[i] == p else i < |d| && r[i] == d[i] {
      if i > 0 {
        assert r[i] == d[1..][i - 1] == d[i];
        assert r[i].policyId == Ids(d[1..])[i - 1];
      }
    }
  }

  lemma PutTail(d: seq<Policy>, p: Policy)
    requires NoDuplicates(Ids(d)) && d != []
    ensures NoDuplicates(Ids(d[1..]))
    ensures p.policyId != d[0].policyId ==> (p.policyId in Ids(d) <==> p.policyId in Ids(d[1..]))
  {
    IdsCons(d[0], d[1..]);
    assert d == [d[0]] + d[1..];
  }

  lemma PutCons(d: seq<Policy>, p: Policy, rest: seq<Policy>)
    requires d != [] && d[0].policyId != p.policyId
    requires p.policyId in Ids(d) <==> p.policyId in Ids(d[1..])
    requires IsPut(d[1..], p, rest)
    ensures IsPut(d, p, [d[0]] + rest)
  {
    IdsCons(d[0], d[1..]);
    assert d == [d[0]] + d[1..];
    IdsCons(d[0], rest);
    var r := [d[0]] + rest;
    forall i | 0 < i < |r| ensures if r[i].policyId == p.policyId then r[i] == p else i < |d| && r[i] == d[i] {
      assert r[i] == rest[i - 1];
      if i < |d| {
        assert d[i] == d[1..][i - 1];
      }
    }
  }

  lemma IdsCons(p: Policy, ps: seq<Policy>)
    ensures Ids([p] + ps) == [p.policyId] + Ids(ps)
  {
    assert forall i :: 1 <= i <= |ps| ==> ([p] + ps)[i] == ps[i - 1];
  }

  /** `{p['policy_id']: p for p in ps}.values()`. */
  function Merged(ps: seq<Policy>): (r: seq<Policy>)
    ensures NoDuplicates(Ids(r))
  {
    if ps == [] then []
    else Put(Merged(ps[..|ps| - 1]), ps[|ps| - 1])
  }

  /** The last row of `ps` with the given id, if any. */
  function LastWithId(ps: seq<Policy>, id: string): (r: Option<Policy>)
    ensures r.Some? ==> r.value in ps && r.value.policyId == id
  {
    if ps == [] then None
    else if ps[|ps| - 1].policyId == id then Some(ps[|ps| - 1])
    else LastWithId(ps[..|ps| - 1], id)
  }

  /** The merged ids are the distinct input ids in the order of their first occurrence. */
  lemma {:induction false} MergedIds(ps: seq<Policy>)
    ensures Ids(Merged(ps)) == Distinct(Ids(ps))
  {
    if ps != [] {
      var n := |ps| - 1;
      MergedIds(ps[..n]);
      assert Ids(ps)[..n] == Ids(ps[..n]);
    }
  }

  /** Each merged row is the last input row with its id. */
  lemma {:induction false} MergedKeepsLast(ps: seq<Policy>)
    ensures forall i :: 0 <= i < |Merged(ps)| ==> LastWithId(ps, Merged(ps)[i].policyId) == Some(Merged(ps)[i])
  {
    if ps != [] {
      var n := |ps| - 1;
      MergedKeepsLast(ps[..n]);
      var d := Merged(ps[..n]);
      var r := Merged(ps);
      forall i | 0 <= i < |r| ensures LastWithId(ps, r[i].policyId) == Some(r[i]) {
        if r[i].policyId != ps[n].policyId {
          assert i < |d| && r[i] == d[i];
        }
      }
    }
  }

  /** The last row with an id in `a + b` comes from `b` when `b` has that id. */
  lemma {:induction false} LastWithIdAppend(a: seq<Policy>, b: seq<Policy>, id: string)
    ensures LastWithId(a + b, id) == if LastWithId(b, id).Some? then LastWithId(b, id) else LastWithId(a, id)
  {
    if b == [] {
      assert a + b == a;
    } else {
      var n := |b| - 1;
      assert (a + b)[..|a + b| - 1] == a + b[..n];
      LastWithIdAppend(a, b[..n], id);
    }
  }

  lemma {:induction false} LastWithIdFound(ps: seq<Policy>, id: string)
    ensures LastWithId(ps, id).Some? <==> id in Ids(ps)
  {
    if ps != [] {
      var n := |ps| - 1;
      LastWithIdFound(ps[..n], id);
      assert Ids(ps) == Ids(ps[..n]) + [ps[n].policyId];
    }
  }

  /** The merge of the zip-code rows with the nearby rows keeps every zip-code policy id,
      lists each id once, and for an id that both lists have keeps the nearby row (the
      last nearby row with that id). */
  lemma MergeZipAndNearby(inZip: seq<Policy>, near: seq<Policy>)
    ensures NoDuplicates(Ids(Merged(inZip + near)))
    ensures forall p :: p in inZip ==> p.policyId in Ids(Merged(inZip + near))
    ensures forall p :: p in near ==> p.policyId in Ids(Merged(inZip + near))
    ensures forall q :: q in Merged(inZip + near) && q.policyId in Ids(near) ==>
      Some(q) == LastWithId(near, q.policyId)
    ensures forall q :: q in Merged(inZip + near) ==> q in inZip || q in near
  {
    var all := inZip + near;
    var r := Merged(all);
    MergedIds(all);
    MergedKeepsLast(all);
    forall p | p in all ensures p.policyId in Ids(r) {
      var k :| 0 <= k < |all| && all[k] == p;
      assert Ids(all)[k] == p.policyId;
    }
    forall q | q in r ensures (q.policyId in Ids(near) ==> Some(q) == LastWithId(near, q.policyId)) && (q in inZip || q in near) {
      var k :| 0 <= k < |r| && r[k] == q;
      LastWithIdAppend(inZip, near, q.policyId);
      LastWithIdFound(near, q.policyId);
      assert LastWithId(all, q.policyId) == Some(q);
    }
  }

  /** `get_policies_in_zip(zip)`: the active policies of the zip code, in table order. */
  function PoliciesInZip(policies: seq<Policy>, zip: string): (r: seq<Policy>)
    ensures forall p :: p in r <==> p in policies && p.location.zipCode == zip && p.status == "active"
  {
    if policies == [] then []
    else
      var n := |policies| - 1;
      assert policies == policies[..n] + [policies[n]];
      PoliciesInZip(policies[..n], zip)
        + (if policies[n].location.zipCode == zip && policies[n].status == "active" then [policies[n]] else [])
  }

  /** The policies an outage affects: the zip-code rows, merged with the rows `nearby`
      returns for the outage's coordinates when neither coordinate is zero. */
  function AffectedPolicies(row: OutageRow, policies: seq<Policy>, nearby: (real, real) -> seq<Policy>): (r: seq<Policy>)
    ensures forall p :: p in PoliciesInZip(policies, row.zipCode) ==> p.policyId in Ids(r)
    ensures row.latitude == 0.0 || row.longitude == 0.0 ==> r == PoliciesInZip(policies, row.zipCode)
  {
    var inZip := PoliciesInZip(policies, row.zipCode);
    if row.latitude != 0.0 && row.longitude != 0.0 then
      MergeZipAndNearby(inZip, nearby(row.latitude, row.longitude));
      Merged(inZip + nearby(row.latitude, row.longitude))
    else
      assert forall p :: p in inZip ==> p.policyId in Ids(inZip) by {
        forall p | p in inZip ensures p.policyId in Ids(inZip) {
          var k :| 0 <= k < |inZip| && inZip[k] == p;
          assert Ids(inZip)[k] == p.policyId;
        }
      }
      inZip
  }

  /** The `OutageEvent` the handler builds from a row: city and state kept, no address. */
  function OutageFromRow(row: OutageRow, st: OutageStatus): (o: OutageEvent)
    ensures o.eventId == row.eventId && o.location.zipCode == row.zipCode && o.status == st
    ensures o.location.city == row.city && o.location.state == row.state && o.location.address.None?
    ensures o.durationMinutes == row.durationMinutes && o.dataSource == row.dataSource
  {
    OutageEvent(row.eventId, row.utilityName, Location(row.latitude, row.longitude, row.zipCode, None, row.city, row.state),
                row.affectedCustomers, row.outageStart, row.outageEnd, row.durationMinutes, st,
                row.cause, row.reportedCause, row.dataSource, row.lastUpdated)
  }

  /** The loop body for one outage: the `outage.detected` event it sends, or `None` when the
      zip code has no active policy or the status does not parse (the exception abandons
      the outage). */
  function MonitorOutage(row: OutageRow, policies: seq<Policy>, nearby: (real, real) -> seq<Policy>): (e: Option<Event>)
    ensures e.Some? <==> PoliciesInZip(policies, row.zipCode) != [] && ParseOutageStatus(row.status).Some?
  {
    if PoliciesInZip(policies, row.zipCode) == [] then None
    else
      var affected := AffectedPolicies(row, policies, nearby);
      match ParseOutageStatus(row.status)
      case None => None
      case Some(st) => Some(OutageDetectedEvent(OutageFromRow(row, st), Ids(affected)))
  }

  /** An `outage.detected` event is built exactly when the zip code has an active policy
      and the status parses; its subject names the outage and its data lists the affected
      ids and their count. */
  lemma MonitorOutageEvent(row: OutageRow, policies: seq<Policy>, nearby: (real, real) -> seq<Policy>)
    ensures var e := MonitorOutage(row, policies, nearby);
      (e.Some? <==> PoliciesInZip(policies, row.zipCode) != [] && ParseOutageStatus(row.status).Some?)
      && (e.Some? ==>
        e.value.eventType == OutageDetected && SubjectId("outage/", e.value.subject) == Some(row.eventId)
        && e.value.data.JObj?
        && Lookup(e.value.data.fields, "affected_policies") == Some(StrList(Ids(AffectedPolicies(row, policies, nearby))))
        && Lookup(e.value.data.fields, "policy_count") == Some(JInt(|AffectedPolicies(row, policies, nearby)|)))
  {
    var st := ParseOutageStatus(row.status);
    if PoliciesInZip(policies, row.zipCode) != [] && st.Some? {
      var o := OutageFromRow(row, st.value);
      var ids := Ids(AffectedPolicies(row, policies, nearby));
      var ev := OutageDetectedEvent(o, ids);
      assert MonitorOutage(row, policies, nearby) == Some(ev);
      OutageDetectedFields(o, ids);
      assert ev.data.fields == OutageDetectedData(o, ids);
    }
  }

  /** An outage is announced only when its zip code has an active policy: with none it is
      skipped, whatever lies near it. */
  lemma AnnouncedOnlyWithZipPolicy(row: OutageRow, policies: seq<Policy>, nearby: (real, real) -> seq<Policy>)
    ensures MonitorOutage(row, policies, nearby).Some? ==>
      exists p :: p in policies && p.status == "active" && p.location.zipCode == row.zipCode
  {
    var inZip := PoliciesInZip(policies, row.zipCode);
    if inZip != [] {
      assert inZip[0] in inZip;
    }
  }

  /** Every active policy of the outage's zip code is among the announced policy ids. */
  lemma ZipPoliciesAnnounced(row: OutageRow, policies: seq<Policy>, nearby: (real, real) -> seq<Policy>, p: Policy)
    requires p in policies && p.location.zipCode == row.zipCode && p.status == "active"
    requires ParseOutageStatus(row.status).Some?
    ensures var e := MonitorOutage(row, policies, nearby);
      e.Some? && e.value.data.JObj?
      && Lookup(e.value.data.fields, "affected_policies") == Some(StrList(Ids(AffectedPolicies(row, policies, nearby))))
      && p.policyId in Ids(AffectedPolicies(row, policies, nearby))
  {
    assert p in PoliciesInZip(policies, row.zipCode);
    MonitorOutageEvent(row, policies, nearby);
  }

  /** One attempt per active outage, in order. */
  function Attempts(active: seq<OutageRow>, policies: seq<Policy>, nearby: (real, real) -> seq<Policy>): (r: seq<Option<Event>>)
    ensures |r| == |active|
    ensures forall i :: 0 <= i < |active| ==> r[i] == MonitorOutage(active[i], policies, nearby)
  {
    seq(|active|, i requires 0 <= i < |active| => MonitorOutage(active[i], policies, nearby))
  }

  /** The events a run of attempts delivers. */
  function SentOf(attempts: seq<Option<Event>>, accepts: Event -> bool): (r: seq<Event>)
    ensures |r| <= |attempts|
  {
    if attempts == [] then []
    else
      var n := |attempts| - 1;
      SentOf(attempts[..n], accepts)
        + (if attempts[n].Some? then Delivered(attempts[n].value, accepts(attempts[n].value)) else [])
  }

  /** `events_published` after a run of attempts. */
  function CountOf(attempts: seq<Option<Event>>, accepts: Event -> bool): (c: nat)
    ensures c <= |attempts|
  {
    if attempts == [] then 0
    else
      var n := |attempts| - 1;
      CountOf(attempts[..n], accepts) + (if attempts[n].Some? && accepts(attempts[n].value) then 1 else 0)
  }

  /** The counter equals the number of events the topic received, and each received event
      announces one of the outages. */
  lemma {:induction false} CountIsDelivered(attempts: seq<Option<Event>>, accepts: Event -> bool)
    ensures CountOf(attempts, accepts) == |SentOf(attempts, accepts)|
    ensures forall e :: e in SentOf(attempts, accepts) ==> Some(e) in attempts && accepts(e)
  {
    if attempts != [] {
      var n := |attempts| - 1;
      CountIsDelivered(attempts[..n], accepts);
      forall e | e in SentOf(attempts, accepts) ensures Some(e) in attempts && accepts(e) {
        if e in SentOf(attempts[..n], accepts) {
          var k :| 0 <= k < n && attempts[..n][k] == Some(e);
          assert attempts[k] == Some(e);
        } else {
          assert attempts[n] == Some(e);
        }
      }
    }
  }

  /** With no active outages nothing is sent and the counter stays at zero. */
  lemma NoOutagesNothingPublished(policies: seq<Policy>, nearby: (real, real) -> seq<Policy>, accepts: Event -> bool)
    ensures SentOf(Attempts([], policies, nearby), accepts) == []
    ensures CountOf(Attempts([], policies, nearby), accepts) == 0
  {
  }

  lemma SentOfPrefix(attempts: seq<Option<Event>>, i: int, accepts: Event -> bool)
    requires 0 <= i < |attempts|
    ensures SentOf(attempts[..i + 1], accepts) == SentOf(attempts[..i], accepts)
      + (if attempts[i].Some? then Delivered(attempts[i].value, accepts(attempts[i].value)) else [])
    ensures CountOf(attempts[..i + 1], accepts) == CountOf(attempts[..i], accepts)
      + (if attempts[i].Some? && accepts(attempts[i].value) then 1 else 0)
  {
    assert attempts[..i + 1][..i] == attempts[..i];
  }

  /** `main(mytimer)` after the clients are created: `active` is what `get_active_outages`
      returned, `nearby` answers `get_policies_near_location` and `accepts` says which sends
      succeed. Returns `events_published`. */
  method Handle(active: seq<OutageRow>, policies: seq<Policy>, nearby: (real, real) -> seq<Policy>,
                accepts: Event -> bool, grid: EventGridClient) returns (published: nat)
    modifies grid
    ensures published == CountOf(Attempts(active, policies, nearby), accepts)
    ensures grid.sent == old(grid.sent) + SentOf(Attempts(active, policies, nearby), accepts)
  {
    ghost var attempts := Attempts(active, policies, nearby);
    published := 0;
    var i := 0;
    while i < |active|
      invariant 0 <= i <= |active|
      invariant published == CountOf(attempts[..i], accepts)
      invariant grid.sent == old(grid.sent) + SentOf(attempts[..i], accepts)
    {
      SentOfPrefix(attempts, i, accepts);
      var e := BuildEvent(active[i], policies, nearby);
      assert e == attempts[i];
      if e.Some? {
        ghost var sent0 := grid.sent;
        var success := grid.PublishEvent(e.value, accepts(e.value));
        if success {
          published := published + 1;
        }
        assert grid.sent == old(grid.sent) + SentOf(attempts[..i + 1], accepts) by {
          assert grid.sent == sent0 + Delivered(e.value, accepts(e.value));
          AppendAssoc(old(grid.sent), SentOf(attempts[..i], accepts), Delivered(e.value, accepts(e.value)));
        }
      }
      i := i + 1;
    }
    assert attempts[..i] == attempts;
  }

  /** The loop body up to the publish: the zip-code query, the skip when it is empty, the
      nearby merge, and the event built from the row. */
  method BuildEvent(row: OutageRow, policies: seq<Policy>, nearby: (real, real) -> seq<Policy>) returns (e: Option<Event>)
    ensures e == MonitorOutage(row, policies, nearby)
  {
    var affected := PoliciesInZip(policies, row.zipCode);
    if affected == [] {
      return None;
    }
    if row.latitude != 0.0 && row.longitude != 0.0 {
      affected := Merged(affected + nearby(row.latitude, row.longitude));
    }
    var st := ParseOutageStatus(row.status);
    if st.None? {
      return None;
    }
    e := Some(OutageDetectedEvent(OutageFromRow(row, st.value), Ids(affected)));
  }
}
