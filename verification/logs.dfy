/** The log facade: listing the log records of an instance or a service. */
module Logs {
  import opened Http
  import opened Codec
  import Text
  import Auth

  /** A log record as decoded; it has no back-reference. */
  datatype LogRecord = LogRecord(
    id: Option<string>,
    timestamp: Option<string>,
    message: Option<string>,
    stream: Option<string>,
    tag: Option<string>)

  class LogResource {
    const client: Auth.Client

    constructor (client: Auth.Client)
      ensures this.client == client
    {
      this.client := client;
    }

    /** The records of an instance: `instance` always, `size` when `lines`
        is positive and `since` when non-empty. */
    method ListByInstance(instanceURL: string, lines: int, since: string, got: Fetched<seq<LogRecord>>)
      returns (x: Exchange<seq<LogRecord>>)
      ensures x.sent.Some? && x.sent.value.Api? && x.sent.value.verb == GET
      ensures x.sent.value.target == BasePath("logs/") && x.sent.value.body.None?
      ensures Asks(x.sent.value.query, "instance", instanceURL, lines, since)
      ensures x.result == Records(got)
    {
      var q := Query("instance", instanceURL, lines, since);
      x := Exchange(Some(Api(GET, BasePath("logs/"), q, None)), Records(got));
    }

    /** The records of a service: `service` always, `size` when `lines` is
        positive and `since` when non-empty. */
    method ListByService(serviceURL: string, lines: int, since: string, got: Fetched<seq<LogRecord>>)
      returns (x: Exchange<seq<LogRecord>>)
      ensures x.sent.Some? && x.sent.value.Api? && x.sent.value.verb == GET
      ensures x.sent.value.target == BasePath("logs/") && x.sent.value.body.None?
      ensures Asks(x.sent.value.query, "service", serviceURL, lines, since)
      ensures x.result == Records(got)
    {
      var q := Query("service", serviceURL, lines, since);
      x := Exchange(Some(Api(GET, BasePath("logs/"), q, None)), Records(got));
    }
  }

  /** A log query for the subject `key` = `subject`: the subject always,
      `size` exactly when `lines` is positive (as its decimal numeral),
      `since` exactly when non-empty, and nothing else. */
  predicate Asks(q: map<string, string>, key: string, subject: string, lines: int, since: string) {
    && key in q && q[key] == subject
    && ("size" in q <==> lines > 0)
    && (lines > 0 ==> q["size"] == Text.Decimal(lines))
    && Binds(q, "since", NonEmpty(since))
    && q.Keys <= {key, "size", "since"}
  }

  /** Build the query of a log listing, one parameter at a time. */
  method Query(key: string, subject: string, lines: int, since: string) returns (q: map<string, string>)
    requires key != "size" && key != "since"
    ensures Asks(q, key, subject, lines, since)
  {
    q := map[];
    q := q[key := subject];
    if lines > 0 {
      q := q["size" := Text.Decimal(lines)];
    }
    if since != "" {
      q := q["since" := since];
    }
  }

  /** The records a listing returns: the client's error, or the decoded
      records exactly as they came. */
  function Records(got: Fetched<seq<LogRecord>>): (r: Result<seq<LogRecord>>)
    ensures r.Ok? <==> got.Got?
    ensures got.Failed? ==> r == Err(got.err)
    ensures got.Got? ==> r.value == got.value
  {
    match got
    case Failed(e) => Err(e)
    case Got(_, records) => Ok(records)
  }

  /** The server reads back the number of lines that was asked for, and
      nothing is asked for when the number is not positive. */
  lemma SizeRecoversLines(q: map<string, string>, key: string, subject: string, lines: int, since: string)
    requires Asks(q, key, subject, lines, since)
    ensures lines > 0 ==> Text.AllDigits(q["size"]) && Text.ParseDecimal(q["size"]) == lines
    ensures Lookup(q, "since") == NonEmpty(since)
  {
    if lines > 0 {
      Text.DecimalRoundTrip(lines);
    }
  }
}
