/** The build facade: the `Build` record and its encoding, the listing
    query, creation, and the upload that performs a build. */
module Builds {
  import opened Http
  import opened Codec
  import Text
  import Auth

  /** The facade that created or fetched a record; records point back at it. */
  class BuildResource {
    const client: Auth.Client

    constructor (client: Auth.Client)
      ensures this.client == client
    {
      this.client := client;
    }

    /** List builds, optionally of a site and an instance, at most `limit`
        of them when it is positive; on success every record of the decoded
        slice is made to point back here, in place. */
    method List(siteURL: Option<string>, instanceURL: Option<string>, limit: int, got: Fetched<array<Build>>)
      returns (x: Exchange<array<Build>>)
      modifies if got.Got? then {got.value} else {}
      ensures x.sent == Some(ListRequest(siteURL, instanceURL, limit))
      ensures got.Failed? ==> x.result == Err(got.err)
      ensures got.Got? ==> x.result == Ok(got.value)
      ensures got.Got? ==> forall k :: 0 <= k < got.value.Length ==> got.value[k] == old(got.value[k]).(r := this)
    {
      var sent := Some(ListRequest(siteURL, instanceURL, limit));
      match got
      case Failed(e) =>
        x := Exchange(sent, Err(e));
      case Got(_, res) =>
        var i := 0;
        while i < res.Length
          invariant 0 <= i <= res.Length
          invariant forall k :: 0 <= k < i ==> res[k] == old(res[k]).(r := this)
          invariant forall k :: i <= k < res.Length ==> res[k] == old(res[k])
        {
          res[i] := res[i].(r := this);
          i := i + 1;
        }
        x := Exchange(sent, Ok(res));
    }

    /** Create a build: POST the record to `builds/`. The answer is decoded
        into the caller's record, which points back here only when the call
        succeeded; a failed call leaves the record as it was. */
    method Create(build: Ref<Build>, got: Fetched<Payload>) returns (x: Exchange<()>)
      modifies build
      ensures x.sent == Some(Api(POST, BasePath("builds/"), map[], Some(Encode(old(build.value)))))
      ensures got.Failed? ==> x.result == Err(got.err) && build.value == old(build.value)
      ensures got.Got? ==> x.result == Ok(()) && build.value == DecodeInto(got.value, old(build.value)).(r := this)
    {
      var sent := Some(Api(POST, BasePath("builds/"), map[], Some(Encode(build.value))));
      match got
      case Failed(e) =>
        x := Exchange(sent, Err(e));
      case Got(_, answer) =>
        build.value := DecodeInto(answer, build.value);
        build.value := build.value.(r := this);
        x := Exchange(sent, Ok(()));
    }
  }

  /** A build record: every `Option` is a Go pointer field; `r` is the
      back-reference to the facade and is never serialised. */
  datatype Build = Build(
    site: Option<string>,
    instance: Option<string>,
    buildLabel: Option<string>,
    ref: Option<string>,
    sha: Option<string>,
    buildpackURL: Option<string>,
    creator: Option<string>,
    created: Option<string>,
    url: Option<string>,
    r: BuildResource?)

  /** The record with no field set. */
  const Blank := Build(None, None, None, None, None, None, None, None, None, null)

  /** The listing query: `site` and `instance` only when given, `limit` only
      when positive, as its decimal numeral. */
  function ListRequest(siteURL: Option<string>, instanceURL: Option<string>, limit: int): (req: Request)
    ensures req.Api? && req.verb == GET && req.target == BasePath("builds/") && req.body.None?
    ensures Binds(req.query, "site", siteURL) && Binds(req.query, "instance", instanceURL)
    ensures "limit" in req.query <==> limit > 0
    ensures limit > 0 ==> req.query["limit"] == Text.Decimal(limit)
    ensures req.query.Keys <= {"site", "instance", "limit"}
  {
    var q := Param("site", siteURL) + Param("instance", instanceURL)
             + Param("limit", if limit > 0 then Some(Text.Decimal(limit)) else None);
    Api(GET, BasePath("builds/"), q, None)
  }

  /** The server reads back the limit that was asked for. */
  lemma ListRequestRecoversLimit(siteURL: Option<string>, instanceURL: Option<string>, limit: int)
    requires limit > 0
    ensures var q := ListRequest(siteURL, instanceURL, limit).query;
            Text.AllDigits(q["limit"]) && Text.ParseDecimal(q["limit"]) == limit
  {
    Text.DecimalRoundTrip(limit);
  }

  /** The serialised fields of a build, under their JSON tags. */
  function Entries(b: Build): seq<Entry> {
    [Entry("site", Str(b.site)), Entry("instance", Str(b.instance)), Entry("label", Str(b.buildLabel)),
     Entry("ref", Str(b.ref)), Entry("sha", Str(b.sha)), Entry("buildpack_url", Str(b.buildpackURL)),
     Entry("creator", Str(b.creator)), Entry("created", Str(b.created)), Entry("url", Str(b.url))]
  }

  lemma EntriesDistinct(b: Build)
    ensures DistinctKeys(Entries(b))
  {
  }

  /** The JSON object of a build: each key is there exactly when its pointer
      is set, and there is no other key. */
  function Encode(b: Build): (p: Payload)
    ensures Carries(p, "site", Str(b.site)) && Carries(p, "instance", Str(b.instance))
    ensures Carries(p, "label", Str(b.buildLabel)) && Carries(p, "ref", Str(b.ref))
    ensures Carries(p, "sha", Str(b.sha)) && Carries(p, "buildpack_url", Str(b.buildpackURL))
    ensures Carries(p, "creator", Str(b.creator)) && Carries(p, "created", Str(b.created))
    ensures Carries(p, "url", Str(b.url))
    ensures p.Keys <= {"site", "instance", "label", "ref", "sha", "buildpack_url", "creator", "created", "url"}
  {
    var e := Entries(b);
    EntriesDistinct(b);
    CollectCarries(e, 0);
    CollectCarries(e, 1);
    CollectCarries(e, 2);
    CollectCarries(e, 3);
    CollectCarries(e, 4);
    CollectCarries(e, 5);
    CollectCarries(e, 6);
    CollectCarries(e, 7);
    CollectCarries(e, 8);
    forall k | k in Collect(e)
      ensures k in {"site", "instance", "label", "ref", "sha", "buildpack_url", "creator", "created", "url"}
    {
      CollectKeys(e, k);
    }
    Collect(e)
  }

  /** Decoding a JSON object into an existing record: keys that are absent
      leave their field as it was, null clears it. */
  function DecodeInto(p: Payload, b: Build): Build {
    b.(site := ReadString(p, "site", b.site), instance := ReadString(p, "instance", b.instance),
       buildLabel := ReadString(p, "label", b.buildLabel), ref := ReadString(p, "ref", b.ref),
       sha := ReadString(p, "sha", b.sha), buildpackURL := ReadString(p, "buildpack_url", b.buildpackURL),
       creator := ReadString(p, "creator", b.creator), created := ReadString(p, "created", b.created),
       url := ReadString(p, "url", b.url))
  }

  /** Encoding loses nothing but the back-reference. */
  lemma DecodeEncode(b: Build)
    ensures DecodeInto(Encode(b), Blank) == b.(r := null)
  {
  }

  /** A server that echoes the record it was sent leaves the record as it was. */
  lemma EchoKeepsRecord(b: Build)
    ensures DecodeInto(Encode(b), b) == b
  {
  }

  /** The headers of the upload: the bearer token of the client, a tar body,
      sent as the attachment `blob.tar`. */
  function UploadHeaders(accessToken: string): (h: map<string, string>)
    ensures h.Keys == {"Authorization", "Content-Type", "Content-Disposition"}
    ensures h["Authorization"] == "Bearer " + accessToken
    ensures h["Content-Type"] == "application/x-tar"
    ensures h["Content-Disposition"] == "attachment; filename=blob.tar"
  {
    map["Authorization" := "Bearer " + accessToken,
        "Content-Type" := "application/x-tar",
        "Content-Disposition" := "attachment; filename=blob.tar"]
  }

  /** Perform a build: PUT the archive to the build's URL with the upload
      headers. A status below 300 gives the decoded `endpoint` (or the
      decoder's error); any other status is an error naming the status. */
  function Perform(b: Build, reply: Reply<string>): (x: Exchange<string>)
    requires b.url.Some? && b.r != null
    reads b.r.client
    ensures x.sent == Some(Raw(PUT, Absolute(b.url.value), UploadHeaders(b.r.client.accessToken)))
    ensures x.result.Ok? <==> reply.Replied? && reply.status < 300 && reply.body.Payload?
    ensures x.result.Ok? ==> x.result.value == reply.body.value
    ensures reply.TransportFailure? ==> x.result == Err(reply.err)
    ensures reply.Replied? && reply.status < 300 && reply.body.Malformed? ==> x.result == Err(reply.body.err)
    ensures reply.Replied? && reply.status >= 300 ==>
              x.result == Err(Text("build: non-200 response; got " + reply.statusText))
  {
    var sent := Some(Raw(PUT, Absolute(b.url.value), UploadHeaders(b.r.client.accessToken)));
    match reply
    case TransportFailure(e) => Exchange(sent, Err(e))
    case Replied(status, statusText, body) =>
      if status < 300 then
        match body
        case Payload(endpoint) => Exchange(sent, Ok(endpoint))
        case Malformed(e) => Exchange(sent, Err(e))
      else Exchange(sent, Err(Text("build: non-200 response; got " + statusText)))
  }

  /** The upload authorises itself the way the client's own token check
      does: with the same bearer header for the client's current token. */
  lemma PerformUsesClientBearer(b: Build, reply: Reply<string>)
    requires b.url.Some? && b.r != null
    ensures Perform(b, reply).sent.value.headers["Authorization"]
            == Auth.Probe(b.r.client.Creds()).headers["Authorization"]
  {
  }
}
