/** The deployment facade: the `Deployment` record, listing, creation, and
    the readiness check a deployment is waited on with. */
module Deployments {
  import opened Http
  import opened Codec
  import Auth
  import Services

  /** The facade that created or fetched a record; records point back at it. */
  class DeploymentResource {
    const client: Auth.Client

    constructor (client: Auth.Client)
      ensures this.client == client
    {
      this.client := client;
    }

    /** List deployments, optionally of one site; on success every record of
        the decoded slice is made to point back here, in place. */
    method List(siteURL: Option<string>, got: Fetched<array<Deployment>>) returns (x: Exchange<array<Deployment>>)
      modifies if got.Got? then {got.value} else {}
      ensures x.sent == Some(ListRequest(siteURL))
      ensures got.Failed? ==> x.result == Err(got.err)
      ensures got.Got? ==> x.result == Ok(got.value)
      ensures got.Got? ==> forall k :: 0 <= k < got.value.Length ==> got.value[k] == old(got.value[k]).(r := this)
    {
      var sent := Some(ListRequest(siteURL));
      match got
      case Failed(e) =>
        x := Exchange(sent, Err(e));
      case Got(_, res) =>
        var i := 0;
        while i < res.Length
          invariant 0 <= i <= res.Length
          invariant forall k :: 0 <= k < i ==> res[k] == old(res[k]).(r := this)
          invariant forall k :: i <= k < res.Length ==> res[k] == old(res[k])
        {
          res[i] := res[i].(r := this);
          i := i + 1;
        }
        x := Exchange(sent, Ok(res));
    }

    /** Create a deployment: POST the record to `deployments/`. The answer is
        decoded into the caller's record, which points back here only when
        the call succeeded; a failed call leaves the record as it was. */
    method Create(deployment: Ref<Deployment>, got: Fetched<Payload>) returns (x: Exchange<()>)
      modifies deployment
      ensures x.sent == Some(Api(POST, BasePath("deployments/"), map[], Some(Encode(old(deployment.value)))))
      ensures got.Failed? ==> x.result == Err(got.err) && deployment.value == old(deployment.value)
      ensures got.Got? ==> x.result == Ok(()) && deployment.value == DecodeInto(got.value, old(deployment.value)).(r := this)
    {
      var sent := Some(Api(POST, BasePath("deployments/"), map[], Some(Encode(deployment.value))));
      match got
      case Failed(e) =>
        x := Exchange(sent, Err(e));
      case Got(_, answer) =>
        deployment.value := DecodeInto(answer, deployment.value);
        deployment.value := deployment.value.(r := this);
        x := Exchange(sent, Ok(()));
    }
  }

  /** A deployment record: every `Option` is a Go pointer field; `r` is the
      back-reference to the facade and is never serialised. */
  datatype Deployment = Deployment(
    service: Option<string>,
    build: Option<string>,
    creator: Option<string>,
    created: Option<string>,
    url: Option<string>,
    r: DeploymentResource?)

  /** The listing request: `site` is set only when a site is given. */
  function ListRequest(siteURL: Option<string>): (req: Request)
    ensures req.Api? && req.verb == GET && req.target == BasePath("deployments/") && req.body.None?
    ensures Binds(req.query, "site", siteURL) && req.query.Keys <= {"site"}
  {
    Api(GET, BasePath("deployments/"), Param("site", siteURL), None)
  }

  /** The serialised fields of a deployment, under their JSON tags. */
  function Entries(d: Deployment): seq<Entry> {
    [Entry("service", Str(d.service)), Entry("build", Str(d.build)), Entry("creator", Str(d.creator)),
     Entry("created", Str(d.created)), Entry("url", Str(d.url))]
  }

  /** The JSON object of a deployment: each key is there exactly when its
      pointer is set, and there is no other key. */
  function Encode(d: Deployment): (p: Payload)
    ensures Carries(p, "service", Str(d.service)) && Carries(p, "build", Str(d.build))
    ensures Carries(p, "creator", Str(d.creator)) && Carries(p, "created", Str(d.created))
    ensures Carries(p, "url", Str(d.url))
    ensures p.Keys <= {"service", "build", "creator", "created", "url"}
  {
    var e := Entries(d);
    assert DistinctKeys(e);
    CollectCarries(e, 0);
    CollectCarries(e, 1);
    CollectCarries(e, 2);
    CollectCarries(e, 3);
    CollectCarries(e, 4);
    forall k | k in Collect(e)
      ensures k in {"service", "build", "creator", "created", "url"}
    {
      CollectKeys(e, k);
    }
    Collect(e)
  }

  /** Decoding a JSON object into an existing record: keys that are absent
      leave their field as it was, null clears it. */
  function DecodeInto(p: Payload, d: Deployment): Deployment {
    d.(service := ReadString(p, "service", d.service), build := ReadString(p, "build", d.build),
       creator := ReadString(p, "creator", d.creator), created := ReadString(p, "created", d.created),
       url := ReadString(p, "url", d.url))
  }

  /** Encoding loses nothing but the back-reference. */
  lemma DecodeEncode(d: Deployment)
    ensures DecodeInto(Encode(d), Deployment(None, None, None, None, None, null)) == d.(r := null)
  {
  }

  /** A server that echoes the record it was sent leaves the record as it was. */
  lemma EchoKeepsRecord(d: Deployment)
    ensures DecodeInto(Encode(d), d) == d
  {
  }

  /** How long a deployment is waited on, in seconds: fifteen minutes. */
  const WaitTimeout: int := 60 * 15

  /** What waiting on a deployment hands to the polling helper: the timeout
      and the URL of the service whose state is polled. */
  datatype WaitCall = WaitCall(timeout: int, serviceURL: string)

  /** Wait on a deployment: poll its service for up to fifteen minutes. */
  function Wait(d: Deployment): (w: WaitCall)
    requires d.service.Some? && d.r != null
    ensures w.timeout == 900 && w.serviceURL == d.service.value
  {
    WaitCall(WaitTimeout, d.service.value)
  }

  /** One poll: whether the deployment is done, and the error that stops
      the wait, if any. */
  datatype Poll = Poll(sent: Option<Request>, done: bool, err: Option<Error>)

  /** One round of the readiness check: fetch the service by URL; a failed
      fetch stops the wait with its error, "running" is done, "deploying"
      is not done yet, and any other state stops the wait with "unknown
      instance state". */
  function Check(services: Services.ServiceResource, serviceURL: string, got: Fetched<Services.Service>): (p: Poll)
    requires got.Got? && got.status != 404 ==> got.value.state.Some?
    ensures p.sent == Some(Api(GET, Absolute(serviceURL), map[], None))
    ensures p.done <==> got.Got? && got.status != 404 && got.value.state == Some("running")
    ensures p.err.None? <==> got.Got? && got.status != 404 && got.value.state.value in {"running", "deploying"}
    ensures got.Failed? ==> p.err == Some(got.err)
    ensures got.Got? && got.status == 404 ==> p.err == Some(Text("service not found"))
    ensures got.Got? && got.status != 404 && got.value.state.value !in {"running", "deploying"} ==>
              p.err == Some(Text("unknown instance state"))
  {
    var x := services.GetFromURL(serviceURL, got);
    match x.result
    case Err(e) => Poll(x.sent, false, Some(e))
    case Ok(service) =>
      match service.state.value
      case "running" => Poll(x.sent, true, None)
      case "deploying" => Poll(x.sent, false, None)
      case _ => Poll(x.sent, false, Some(Text("unknown instance state")))
  }

  /** A check is never both done and failed: the wait either finishes, goes
      on, or stops with an error. */
  lemma CheckOutcomes(services: Services.ServiceResource, serviceURL: string, got: Fetched<Services.Service>)
    requires got.Got? && got.status != 404 ==> got.value.state.Some?
    ensures var p := Check(services, serviceURL, got);
            p.done ==> p.err.None?
    ensures var p := Check(services, serviceURL, got);
            !p.done && p.err.None? <==> got.Got? && got.status != 404 && got.value.state == Some("deploying")
  {
  }
}
