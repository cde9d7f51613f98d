/** The two event publishers embedded in the unified demo notebook: the Event Grid REST
    client `NotebookEventGridClient` and its stand-in `LocalEventLogger`. Both number every
    event they are handed with a counter and keep an audit row for it. The HTTP outcome of
    each POST, the `uuid4()` draws, the `isoformat()` text of the clock and `json.dumps`
    are parameters. */
module NotebookEvents {
  import opened Wrappers
  import opened Text
  import opened Json

  /** One row of `audit_log`. */
  datatype AuditEntry = AuditEntry(
    sequence: int, eventId: string, eventType: Json, subject: Json, eventTime: string,
    dataSummary: string, status: string, error: Option<string>)

  /** One element of the JSON array POSTed to the topic. */
  datatype Posted = Posted(id: string, eventType: Json, subject: Json, eventTime: string, data: Json, dataVersion: Json)

  /** One element of the list handed to `publish_batch`, once its keys are read. */
  datatype BatchItem = BatchItem(eventType: Json, subject: Json, data: Json, dataVersion: Json)

  /** One `publish_event(event_type, subject, data)` call of the notebook's pipeline. */
  datatype Request = Request(eventType: string, subject: string, data: Json)

  /** `endpoint.rstrip("/")`. */
  function RStripSlash(s: string): (r: string)
    ensures |r| <= |s| && r == s[..|r|]
    ensures r == [] || r[|r| - 1] != '/'
    ensures forall i :: |r| <= i < |s| ==> s[i] == '/'
  {
    if s != [] && s[|s| - 1] == '/' then RStripSlash(s[..|s| - 1]) else s
  }

  /** Stripping the trailing slashes twice strips nothing more. */
  lemma RStripSlashIdempotent(s: string)
    ensures RStripSlash(RStripSlash(s)) == RStripSlash(s)
  {
  }

  /** `datetime.utcnow().isoformat() + "Z"`, where `now` is the `isoformat()` text of the
      clock reading. */
  function EventTime(now: string): (t: string)
    ensures EndsWith(t, "Z") && StartsWith(t, now)
  {
    now + "Z"
  }

  /** `json.dumps(data, default=str)[:500]`, with the rendering `dumps` a parameter. */
  function Summary(data: Json, dumps: Json -> string): (s: string)
    ensures |s| <= 500 && StartsWith(dumps(data), s)
    ensures |dumps(data)| <= 500 ==> s == dumps(data)
  {
    Take(dumps(data), 500)
  }

  /** The audit row of the event numbered `n`; `uuidFor(n)` is the id drawn for it. */
  function Entry(n: int, uuidFor: int -> string, eventType: Json, subject: Json, data: Json,
                 now: string, dumps: Json -> string, status: string, error: Option<string>): (a: AuditEntry)
    ensures a.sequence == n && a.eventId == uuidFor(n) && a.status == status && a.error == error
    ensures |a.dataSummary| <= 500
  {
    AuditEntry(n, uuidFor(n), eventType, subject, EventTime(now), Summary(data, dumps), status, error)
  }

  /** The counter has counted exactly the rows of the log, and the rows are numbered 1, 2,
      … in order, with no gap. */
  predicate Numbered(log: seq<AuditEntry>, counter: int) {
    counter == |log| && forall i :: 0 <= i < |log| ==> log[i].sequence == i + 1
  }

  /** Appending a run of rows numbered on from the counter keeps the numbering. */
  lemma NumberedExtend(log: seq<AuditEntry>, counter: int, more: seq<AuditEntry>)
    requires Numbered(log, counter)
    requires forall j :: 0 <= j < |more| ==> more[j].sequence == counter + j + 1
    ensures Numbered(log + more, counter + |more|)
  {
    forall i | 0 <= i < |log + more| ensures (log + more)[i].sequence == i + 1 {
      if i >= |log| {
        assert (log + more)[i] == more[i - |log|];
      }
    }
  }

  /** `evt["event_type"]`, `evt["subject"]`, `evt["data"]` and `evt.get("data_version",
      "1.0")`: `None` when `evt` is not a dictionary or lacks one of the three keys. */
  function ParseItem(evt: Json): (r: Option<BatchItem>)
    ensures r.Some? <==> evt.JObj? && HasKey(evt, "event_type") && HasKey(evt, "subject") && HasKey(evt, "data")
  {
    match evt
    case JObj(fields) =>
      (match (Lookup(fields, "event_type"), Lookup(fields, "subject"), Lookup(fields, "data"))
       case (Some(t), Some(s), Some(d)) =>
         var v := Lookup(fields, "data_version");
         Some(BatchItem(t, s, d, if v.Some? then v.value else JStr("1.0")))
       case _ => None)
    case _ => None
  }

  /** The items `parse` reads before the first event it cannot read. */
  function ParsedBy(parse: Json -> Option<BatchItem>, events: seq<Json>): (r: seq<BatchItem>)
    ensures |r| <= |events|
    ensures forall j :: 0 <= j < |r| ==> parse(events[j]) == Some(r[j])
    ensures |r| < |events| ==> parse(events[|r|]).None?
  {
    if events == [] then []
    else match parse(events[0])
      case None => []
      case Some(it) => [it] + ParsedBy(parse, events[1..])
  }

  /** The items read before the first one that raises. */
  function Parsed(events: seq<Json>): (r: seq<BatchItem>)
    ensures |r| <= |events|
    ensures forall j :: 0 <= j < |r| ==> ParseItem(events[j]) == Some(r[j])
    ensures |r| < |events| ==> ParseItem(events[|r|]).None?
  {
    ParsedBy(ParseItem, events)
  }

  /** The audit rows of a batch sent from counter value `start`, all with the batch's one
      outcome. */
  function BatchAudits(start: int, items: seq<BatchItem>, uuidFor: int -> string, now: string,
                       dumps: Json -> string, failure: Option<string>): (r: seq<AuditEntry>)
    ensures |r| == |items|
    ensures forall j :: 0 <= j < |items| ==>
      r[j] == Entry(start + j + 1, uuidFor, items[j].eventType, items[j].subject, items[j].data, now, dumps,
                    if failure.None? then "published" else "failed", failure)
  {
    seq(|items|, j requires 0 <= j < |items| =>
      Entry(start + j + 1, uuidFor, items[j].eventType, items[j].subject, items[j].data, now, dumps,
            if failure.None? then "published" else "failed", failure))
  }

  /** The JSON array of a batch sent from counter value `start`. */
  function BatchPayload(start: int, items: seq<BatchItem>, uuidFor: int -> string, now: string): (r: seq<Posted>)
    ensures |r| == |items|
    ensures forall j :: 0 <= j < |items| ==>
      r[j] == Posted(uuidFor(start + j + 1), items[j].eventType, items[j].subject, EventTime(now), items[j].data, items[j].dataVersion)
  {
    seq(|items|, j requires 0 <= j < |items| =>
      Posted(uuidFor(start + j + 1), items[j].eventType, items[j].subject, EventTime(now), items[j].data, items[j].dataVersion))
  }

  /** `_event_counter` after `publish_batch(events)` as written: the counter is raised for an
      item before its keys are read, so a malformed item still takes a number. */
  function CounterAfterBatch(counter: int, events: seq<Json>): (c: int)
    ensures |Parsed(events)| == |events| ==> c == counter + |events|
    ensures |Parsed(events)| < |events| ==> c == counter + |Parsed(events)| + 1
  {
    if |Parsed(events)| < |events| then counter + |Parsed(events)| + 1 else counter + |events|
  }

  /** A malformed batch leaves the counter ahead of the log: afterwards the rows are no
      longer numbered by their position. */
  lemma MalformedBatchBreaksNumbering(log: seq<AuditEntry>, counter: int, events: seq<Json>)
    requires Numbered(log, counter)
    requires |Parsed(events)| < |events|
    ensures !Numbered(log, CounterAfterBatch(counter, events))
  {
  }

  /** A concrete case: a fresh client handed a batch whose one item is an empty dictionary
      has counter 1 and an empty log, so its next row is numbered 2. */
  lemma EmptyItemSkipsANumber()
    ensures Parsed([JObj([])]) == []
    ensures CounterAfterBatch(0, [JObj([])]) == 1
    ensures !Numbered([], CounterAfterBatch(0, [JObj([])]))
  {
    assert ParseItem(JObj([])).None?;
  }

  /** `NotebookEventGridClient`. `delivered` is what the topic has accepted. */
  class NotebookEventGridClient {
    var endpoint: string
    var key: string
    var auditLog: seq<AuditEntry>
    var counter: int
    var delivered: seq<Posted>

    predicate Valid()
      reads this
    {
      Numbered(auditLog, counter)
    }

    constructor (endpoint0: string, key0: string)
      ensures endpoint == RStripSlash(endpoint0) && key == key0
      ensures auditLog == [] && counter == 0 && delivered == []
      ensures Valid()
    {
      endpoint := RStripSlash(endpoint0);
      key := key0;
      auditLog := [];
      counter := 0;
      delivered := [];
    }

    /** The URL every POST goes to. */
    function Url(): (u: string)
      reads this
      ensures StartsWith(u, endpoint) && EndsWith(u, "/api/events?api-version=2018-01-01")
    {
      endpoint + "/api/events?api-version=2018-01-01"
    }

    /** `publish_event(event_type, subject, data, data_version)`. `failure` is the text of
        the exception the POST raised, `None` when it succeeded. One row is appended in
        either case and nothing is raised. */
    method PublishEvent(eventType: Json, subject: Json, data: Json, dataVersion: Json,
                        uuidFor: int -> string, now: string, dumps: Json -> string, failure: Option<string>)
      returns (ok: bool)
      modifies this
      ensures ok <==> failure.None?
      ensures endpoint == old(endpoint) && key == old(key)
      ensures counter == old(counter) + 1
      ensures auditLog == old(auditLog)
        + [Entry(counter, uuidFor, eventType, subject, data, now, dumps, if ok then "published" else "failed", failure)]
      ensures delivered == old(delivered)
        + (if ok then [Posted(uuidFor(counter), eventType, subject, EventTime(now), data, dataVersion)] else [])
      ensures old(Valid()) ==> Valid()
    {
      counter := counter + 1;
      var posted := Posted(uuidFor(counter), eventType, subject, EventTime(now), data, dataVersion);
      if failure.None? {
        delivered := delivered + [posted];
        auditLog := auditLog + [Entry(counter, uuidFor, eventType, subject, data, now, dumps, "published", None)];
        ok := true;
      } else {
        auditLog := auditLog + [Entry(counter, uuidFor, eventType, subject, data, now, dumps, "failed", failure)];
        ok := false;
      }
    }

    /** `publish_batch(events)` as written: the rows are built first, one counter value per
        item, and a missing key raises out of the loop after its item has taken its number;
        a well-formed batch is POSTed at once and every row gets the one outcome. */
    method PublishBatch(events: seq<Json>, uuidFor: int -> string, now: string, dumps: Json -> string,
                        failure: Option<string>) returns (r: Result<bool>)
      modifies this
      ensures endpoint == old(endpoint) && key == old(key)
      ensures counter == CounterAfterBatch(old(counter), events)
      ensures |Parsed(events)| < |events| ==>
        r.Err? && auditLog == old(auditLog) && delivered == old(delivered)
      ensures |Parsed(events)| == |events| ==>
        r == Ok(failure.None?)
        && auditLog == old(auditLog) + BatchAudits(old(counter), Parsed(events), uuidFor, now, dumps, failure)
        && delivered == old(delivered) + (if failure.None? then BatchPayload(old(counter), Parsed(events), uuidFor, now) else [])
      ensures old(Valid()) ==> (Valid() <==> |Parsed(events)| == |events|)
    {
      var start := counter;
      var complete := NumberItems(ParseItem, events);
      if !complete {
        return Err("KeyError");
      }
      r := Post(start, Parsed(events), uuidFor, now, dumps, failure);
    }

    /** The loop of `publish_batch`, reading each item with `parse`: one counter value per
        item, up to and including the first item that cannot be read. */
    method NumberItems(parse: Json -> Option<BatchItem>, events: seq<Json>) returns (complete: bool)
      modifies this
      ensures complete <==> |ParsedBy(parse, events)| == |events|
      ensures counter == old(counter) + (if complete then |events| else |ParsedBy(parse, events)| + 1)
      ensures endpoint == old(endpoint) && key == old(key)
      ensures auditLog == old(auditLog) && delivered == old(delivered)
    {
      var items := ParsedBy(parse, events);
      var i := 0;
      while i < |events|
        invariant 0 <= i <= |events| && i <= |items|
        invariant counter == old(counter) + i
        invariant auditLog == old(auditLog) && delivered == old(delivered)
        invariant endpoint == old(endpoint) && key == old(key)
      {
        counter := counter + 1;
        if parse(events[i]).None? {
          return false;
        }
        i := i + 1;
      }
      return true;
    }

    /** The POST of a well-formed batch numbered on from `start`, and its rows. */
    method Post(start: int, items: seq<BatchItem>, uuidFor: int -> string, now: string, dumps: Json -> string,
                failure: Option<string>) returns (r: Result<bool>)
      modifies this
      ensures endpoint == old(endpoint) && key == old(key) && counter == old(counter)
      ensures r == Ok(failure.None?)
      ensures auditLog == old(auditLog) + BatchAudits(start, items, uuidFor, now, dumps, failure)
      ensures delivered == old(delivered) + (if failure.None? then BatchPayload(start, items, uuidFor, now) else [])
      ensures Numbered(old(auditLog), start) && counter == start + |items| ==> Valid()
    {
      var audits := BatchAudits(start, items, uuidFor, now, dumps, failure);
      if failure.None? {
        delivered := delivered + BatchPayload(start, items, uuidFor, now);
        r := Ok(true);
      } else {
        r := Ok(false);
      }
      if Numbered(auditLog, start) {
        NumberedExtend(auditLog, start, audits);
      }
      auditLog := auditLog + audits;
    }

    /** `publish_batch` with the items read before any counter value is taken: a malformed
        batch then raises with nothing changed, and the numbering always survives. */
    method PublishBatchChecked(events: seq<Json>, uuidFor: int -> string, now: string, dumps: Json -> string,
                               failure: Option<string>) returns (r: Result<bool>)
      modifies this
      ensures endpoint == old(endpoint) && key == old(key)
      ensures |Parsed(events)| < |events| ==>
        r.Err? && counter == old(counter) && auditLog == old(auditLog) && delivered == old(delivered)
      ensures |Parsed(events)| == |events| ==>
        r == Ok(failure.None?) && counter == old(counter) + |events|
        && auditLog == old(auditLog) + BatchAudits(old(counter), Parsed(events), uuidFor, now, dumps, failure)
        && delivered == old(delivered) + (if failure.None? then BatchPayload(old(counter), Parsed(events), uuidFor, now) else [])
      ensures old(Valid()) ==> Valid()
    {
      if |Parsed(events)| < |events| {
        return Err("KeyError");
      }
      r := PublishBatch(events, uuidFor, now, dumps, failure);
    }

    /** The pipeline's calls, one after another; `failures(k)` is the outcome of the k-th. */
    method PublishAll(reqs: seq<Request>, uuidFor: int -> string, now: string, dumps: Json -> string,
                      failures: int -> Option<string>)
      modifies this
      ensures endpoint == old(endpoint) && key == old(key)
      ensures counter == old(counter) + |reqs|
      ensures auditLog == old(auditLog) + RemoteAudits(old(counter), reqs, uuidFor, now, dumps, failures)
      ensures old(Valid()) ==> Valid()
    {
      var start := counter;
      ghost var log0 := auditLog;
      var i := 0;
      while i < |reqs|
        invariant 0 <= i <= |reqs|
        invariant endpoint == old(endpoint) && key == old(key)
        invariant counter == start + i
        invariant auditLog == log0 + RemoteAudits(start, reqs[..i], uuidFor, now, dumps, failures)
        invariant old(Valid()) ==> Valid()
      {
        var q := reqs[i];
        ghost var before := auditLog;
        var _ := PublishEvent(JStr(q.eventType), JStr(q.subject), q.data, JStr("1.0"), uuidFor, now, dumps, failures(counter));
        RemoteAuditsPrefix(start, reqs, i, uuidFor, now, dumps, failures);
        AppendAssoc(log0, RemoteAudits(start, reqs[..i], uuidFor, now, dumps, failures), [auditLog[|auditLog| - 1]]);
        i := i + 1;
      }
      assert reqs[..i] == reqs;
    }
  }

  /** The rows `publish_event` leaves for a run of calls made from counter value `start`;
      the call numbered `n` fails with `failures(n - 1)`. */
  function RemoteAudits(start: int, reqs: seq<Request>, uuidFor: int -> string, now: string,
                        dumps: Json -> string, failures: int -> Option<string>): (r: seq<AuditEntry>)
    ensures |r| == |reqs|
    ensures forall j :: 0 <= j < |reqs| ==>
      r[j] == Entry(start + j + 1, uuidFor, JStr(reqs[j].eventType), JStr(reqs[j].subject), reqs[j].data, now, dumps,
                    if failures(start + j).None? then "published" else "failed", failures(start + j))
  {
    seq(|reqs|, j requires 0 <= j < |reqs| =>
      Entry(start + j + 1, uuidFor, JStr(reqs[j].eventType), JStr(reqs[j].subject), reqs[j].data, now, dumps,
            if failures(start + j).None? then "published" else "failed", failures(start + j)))
  }

  /** The rows `LocalEventLogger.publish_event` leaves for a run of events made from counter
      value `start`. */
  function LocalAudits(start: int, items: seq<BatchItem>, uuidFor: int -> string, now: string,
                       dumps: Json -> string): (r: seq<AuditEntry>)
    ensures |r| == |items|
    ensures forall j :: 0 <= j < |items| ==>
      r[j] == Entry(start + j + 1, uuidFor, items[j].eventType, items[j].subject, items[j].data, now, dumps, "local_only", None)
  {
    seq(|items|, j requires 0 <= j < |items| =>
      Entry(start + j + 1, uuidFor, items[j].eventType, items[j].subject, items[j].data, now, dumps, "local_only", None))
  }

  lemma RemoteAuditsPrefix(start: int, reqs: seq<Request>, i: int, uuidFor: int -> string, now: string,
                           dumps: Json -> string, failures: int -> Option<string>)
    requires 0 <= i < |reqs|
    ensures RemoteAudits(start, reqs[..i + 1], uuidFor, now, dumps, failures)
         == RemoteAudits(start, reqs[..i], uuidFor, now, dumps, failures)
            + [Entry(start + i + 1, uuidFor, JStr(reqs[i].eventType), JStr(reqs[i].subject), reqs[i].data, now, dumps,
                     if failures(start + i).None? then "published" else "failed", failures(start + i))]
  {
    var a := RemoteAudits(start, reqs[..i + 1], uuidFor, now, dumps, failures);
    var b := RemoteAudits(start, reqs[..i], uuidFor, now, dumps, failures);
    forall j | 0 <= j < i ensures a[j] == b[j] {
      assert reqs[..i + 1][j] == reqs[..i][j];
    }
    assert a[i] == Entry(start + i + 1, uuidFor, JStr(reqs[i].eventType), JStr(reqs[i].subject), reqs[i].data, now, dumps,
                         if failures(start + i).None? then "published" else "failed", failures(start + i));
  }

  lemma LocalAuditsPrefix(start: int, items: seq<BatchItem>, i: int, uuidFor: int -> string, now: string,
                          dumps: Json -> string)
    requires 0 <= i < |items|
    ensures LocalAudits(start, items[..i + 1], uuidFor, now, dumps)
         == LocalAudits(start, items[..i], uuidFor, now, dumps)
            + [Entry(start + i + 1, uuidFor, items[i].eventType, items[i].subject, items[i].data, now, dumps, "local_only", None)]
  {
    var a := LocalAudits(start, items[..i + 1], uuidFor, now, dumps);
    var b := LocalAudits(start, items[..i], uuidFor, now, dumps);
    assert forall j :: 0 <= j < i ==> a[j] == b[j];
  }

  /** Every row the pipeline's calls leave records its own outcome, and the rows stay
      numbered. */
  lemma RemoteAuditsOutcome(log: seq<AuditEntry>, start: int, reqs: seq<Request>, uuidFor: int -> string, now: string,
                            dumps: Json -> string, failures: int -> Option<string>)
    requires Numbered(log, start)
    ensures var r := RemoteAudits(start, reqs, uuidFor, now, dumps, failures);
      Numbered(log + r, start + |reqs|)
      && forall j :: 0 <= j < |r| ==> (r[j].status == "published" <==> r[j].error.None?)
  {
    NumberedExtend(log, start, RemoteAudits(start, reqs, uuidFor, now, dumps, failures));
  }

  /** `LocalEventLogger`: every event is logged as `local_only` and reported as sent. */
  class LocalEventLogger {
    var auditLog: seq<AuditEntry>
    var counter: int

    predicate Valid()
      reads this
    {
      Numbered(auditLog, counter)
    }

    constructor ()
      ensures auditLog == [] && counter == 0 && Valid()
    {
      auditLog := [];
      counter := 0;
    }

    /** `publish_event(event_type, subject, data)`. */
    method PublishEvent(eventType: Json, subject: Json, data: Json, uuidFor: int -> string, now: string,
                        dumps: Json -> string) returns (ok: bool)
      modifies this
      ensures ok
      ensures counter == old(counter) + 1
      ensures auditLog == old(auditLog) + [Entry(counter, uuidFor, eventType, subject, data, now, dumps, "local_only", None)]
      ensures old(Valid()) ==> Valid()
    {
      counter := counter + 1;
      auditLog := auditLog + [Entry(counter, uuidFor, eventType, subject, data, now, dumps, "local_only", None)];
      ok := true;
    }

    /** `publish_batch(events)`: `publish_event` item by item; a missing key raises after
        the items before it are logged. */
    method PublishBatch(events: seq<Json>, uuidFor: int -> string, now: string, dumps: Json -> string)
      returns (r: Result<bool>)
      modifies this
      ensures r == if |Parsed(events)| < |events| then Err("KeyError") else Ok(true)
      ensures counter == old(counter) + |Parsed(events)|
      ensures auditLog == old(auditLog) + LocalAudits(old(counter), Parsed(events), uuidFor, now, dumps)
      ensures old(Valid()) ==> Valid()
    {
      var items := Parsed(events);
      LogAll(items, uuidFor, now, dumps);
      r := if |items| < |events| then Err("KeyError") else Ok(true);
    }

    /** `publish_event` for each read item in turn. */
    method LogAll(items: seq<BatchItem>, uuidFor: int -> string, now: string, dumps: Json -> string)
      modifies this
      ensures counter == old(counter) + |items|
      ensures auditLog == old(auditLog) + LocalAudits(old(counter), items, uuidFor, now, dumps)
      ensures old(Valid()) ==> Valid()
    {
      var start := counter;
      ghost var log0 := auditLog;
      var i := 0;
      while i < |items|
        invariant 0 <= i <= |items|
        invariant counter == start + i
        invariant auditLog == log0 + LocalAudits(start, items[..i], uuidFor, now, dumps)
        invariant old(Valid()) ==> Valid()
      {
        var item := items[i];
        ghost var before := auditLog;
        var _ := PublishEvent(item.eventType, item.subject, item.data, uuidFor, now, dumps);
        ghost var e := Entry(start + i + 1, uuidFor, item.eventType, item.subject, item.data, now, dumps, "local_only", None);
        assert auditLog == before + [e];
        LocalAuditsPrefix(start, items, i, uuidFor, now, dumps);
        AppendAssoc(log0, LocalAudits(start, items[..i], uuidFor, now, dumps), [e]);
        i := i + 1;
      }
      assert items[..i] == items;
    }
  }
}
