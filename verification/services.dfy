/** The service facade: the `Service` record, its field-presence encoding,
    and the requests the facade and the record's own operations send. */
module Services {
  import opened Http
  import opened Codec
  import Text
  import Auth

  /** The facade that fetched a record; records point back at it. */
  class ServiceResource {
    const client: Auth.Client

    constructor (client: Auth.Client)
      ensures this.client == client
    {
      this.client := client;
    }

    /** Fetch one service: a 404 is "service not found" and yields no
        record; any other answer yields the record, pointing back here. */
    function FindOne(target: Target, query: map<string, string>, got: Fetched<Service>): (x: Exchange<Service>)
      ensures x.sent == Some(Api(GET, target, query, None))
      ensures x.result.Ok? <==> got.Got? && got.status != 404
      ensures got.Failed? ==> x.result == Err(got.err)
      ensures got.Got? && got.status == 404 ==> x.result == Err(Text("service not found"))
      ensures x.result.Ok? ==> x.result.value == got.value.(r := this)
    {
      var sent := Some(Api(GET, target, query, None));
      match got
      case Failed(e) => Exchange(sent, Err(e))
      case Got(status, res) =>
        if status == 404 then Exchange(sent, Err(Text("service not found")))
        else Exchange(sent, Ok(res.(r := this)))
    }

    /** Fetch the service at a URL taken from another record. */
    function GetFromURL(value: string, got: Fetched<Service>): (x: Exchange<Service>)
      ensures x.sent == Some(Api(GET, Absolute(value), map[], None))
      ensures x.result.Ok? <==> got.Got? && got.status != 404
      ensures got.Failed? ==> x.result == Err(got.err)
      ensures got.Got? && got.status == 404 ==> x.result == Err(Text("service not found"))
      ensures x.result.Ok? ==> x.result.value == got.value.(r := this)
    {
      FindOne(Absolute(value), map[], got)
    }

    /** Look a service up by instance and name. */
    function Get(instanceURL: string, name: string, got: Fetched<Service>): (x: Exchange<Service>)
      ensures x.sent.Some? && x.sent.value.Api? && x.sent.value.verb == GET
      ensures x.sent.value.target == BasePath("services/find/")
      ensures x.sent.value.query.Keys == {"instance", "name"}
      ensures x.sent.value.query["instance"] == instanceURL && x.sent.value.query["name"] == name
      ensures x.result == FindOne(x.sent.value.target, x.sent.value.query, got).result
    {
      FindOne(BasePath("services/find/"), map["instance" := instanceURL, "name" := name], got)
    }

    /** Two lookups send the same request only when they ask for the same
        instance and name. */
    lemma GetDistinguishesLookups(i1: string, n1: string, i2: string, n2: string, got1: Fetched<Service>, got2: Fetched<Service>)
      requires Get(i1, n1, got1).sent == Get(i2, n2, got2).sent
      ensures i1 == i2 && n1 == n2
    {
      var q := Get(i1, n1, got1).sent.value.query;
      assert q["instance"] == i1 && q["instance"] == i2;
    }

    /** List services, optionally of one instance; on success every record
        of the decoded slice is made to point back here, in place. */
    method List(instanceURL: Option<string>, got: Fetched<array<Service>>) returns (x: Exchange<array<Service>>)
      modifies if got.Got? then {got.value} else {}
      ensures x.sent == Some(ListRequest(instanceURL))
      ensures got.Failed? ==> x.result == Err(got.err)
      ensures got.Got? ==> x.result == Ok(got.value)
      ensures got.Got? ==> forall k :: 0 <= k < got.value.Length ==> got.value[k] == old(got.value[k]).(r := this)
    {
      var sent := Some(ListRequest(instanceURL));
      match got
      case Failed(e) =>
        x := Exchange(sent, Err(e));
      case Got(_, res) =>
        var i := 0;
        while i < res.Length
          invariant 0 <= i <= res.Length
          invariant forall k :: 0 <= k < i ==> res[k] == old(res[k]).(r := this)
          invariant forall k :: i <= k < res.Length ==> res[k] == old(res[k])
        {
          res[i] := res[i].(r := this);
          i := i + 1;
        }
        x := Exchange(sent, Ok(res));
    }

    /** Update a service: PATCH its own URL with every field but `url`. */
    function Update(service: Service, clientErr: Option<Error>): (x: Exchange<()>)
      requires service.url.Some?
      ensures x.sent == Some(Api(PATCH, Absolute(service.url.value), map[], Some(Encode(service) - {"url"})))
      ensures x.result == Outcome(clientErr)
    {
      var body := service.(url := None);
      EncodeWithoutURL(service);
      Exchange(Some(Api(PATCH, Absolute(service.url.value), map[], Some(Encode(body)))), Outcome(clientErr))
    }

    /** Delete the service at a URL. */
    function Delete(serviceURL: string, clientErr: Option<Error>): (x: Exchange<()>)
      ensures x.sent == Some(Api(DELETE, Absolute(serviceURL), map[], None))
      ensures x.result.Err? <==> clientErr.Some?
      ensures x.result.Err? ==> x.result.error == clientErr.value
    {
      Exchange(Some(Api(DELETE, Absolute(serviceURL), map[], None)), Outcome(clientErr))
    }
  }

  /** The listing request: `instance` is set only when an instance is given. */
  function ListRequest(instanceURL: Option<string>): (req: Request)
    ensures req.Api? && req.verb == GET && req.target == BasePath("services/") && req.body.None?
    ensures Binds(req.query, "instance", instanceURL) && req.query.Keys <= {"instance"}
  {
    Api(GET, BasePath("services/"), Param("instance", instanceURL), None)
  }

  /** The instance filter can be read back from the listing request. */
  lemma ListRequestRecoversFilter(instanceURL: Option<string>)
    ensures Lookup(ListRequest(instanceURL).query, "instance") == instanceURL
  {
  }

  /** A service record. Every `Option` is a Go pointer field; `env` and
      `openPorts` are a plain map and a plain string; `r` is the back-reference
      to the facade and is never serialised. */
  datatype Service = Service(
    instance: Option<string>,
    name: Option<string>,
    kind: Option<string>,
    image: Option<string>,
    size: Option<string>,
    replicas: Option<int>,
    network: Option<string>,
    volume: Option<string>,
    state: Option<string>,
    env: map<string, string>,
    webURL: Option<string>,
    version: Option<string>,        // create only
    openPorts: string,              // create only
    desiredState: Option<string>,   // update only
    desiredReplicas: Option<int>,   // update only
    url: Option<string>,
    r: ServiceResource?)

  /** The record with no field set. */
  const Blank := Service(None, None, None, None, None, None, None, None, None, map[], None, None, "", None, None, None, null)

  /** Every key an encoded service can carry. */
  const Keys: seq<string> := ["instance", "name", "kind", "image", "size", "replicas", "network", "volume", "state",
                              "env", "web_url", "version", "open_ports", "desired_state", "desired_replicas", "url"]

  /** The `env` map on the wire: left out when empty. */
  function EnvJson(env: map<string, string>): Option<Json> {
    if env == map[] then None else Some(JObject(map k | k in env :: JString(env[k])))
  }

  /** Reading `env` back from a payload. */
  function ReadEnv(p: Payload): map<string, string> {
    if "env" in p && p["env"].JObject? then
      var fields := p["env"].fields;
      map k | k in fields && fields[k].JString? :: fields[k].s
    else map[]
  }

  /** The serialised fields of a service, in declaration order, under their
      JSON tags; the back-reference has no entry. */
  function Entries(s: Service): seq<Entry> {
    [Entry("instance", Str(s.instance)), Entry("name", Str(s.name)), Entry("kind", Str(s.kind)),
     Entry("image", Str(s.image)), Entry("size", Str(s.size)), Entry("replicas", Num(s.replicas)),
     Entry("network", Str(s.network)), Entry("volume", Str(s.volume)), Entry("state", Str(s.state)),
     Entry("env", EnvJson(s.env)), Entry("web_url", Str(s.webURL)), Entry("version", Str(s.version)),
     Entry("open_ports", Str(NonEmpty(s.openPorts))), Entry("desired_state", Str(s.desiredState)),
     Entry("desired_replicas", Num(s.desiredReplicas)), Entry("url", Str(s.url))]
  }

  lemma EntriesDistinct(s: Service)
    ensures DistinctKeys(Entries(s))
  {
  }

  lemma EntriesCarryFirst(s: Service)
    ensures Carries(Collect(Entries(s)), "instance", Str(s.instance))
    ensures Carries(Collect(Entries(s)), "name", Str(s.name))
    ensures Carries(Collect(Entries(s)), "kind", Str(s.kind))
    ensures Carries(Collect(Entries(s)), "image", Str(s.image))
    ensures Carries(Collect(Entries(s)), "size", Str(s.size))
    ensures Carries(Collect(Entries(s)), "replicas", Num(s.replicas))
    ensures Carries(Collect(Entries(s)), "network", Str(s.network))
    ensures Carries(Collect(Entries(s)), "volume", Str(s.volume))
  {
    EntriesDistinct(s);
    CollectCarries(Entries(s), 0);
    CollectCarries(Entries(s), 1);
    CollectCarries(Entries(s), 2);
    CollectCarries(Entries(s), 3);
    CollectCarries(Entries(s), 4);
    CollectCarries(Entries(s), 5);
    CollectCarries(Entries(s), 6);
    CollectCarries(Entries(s), 7);
  }

  lemma EntriesCarryLast(s: Service)
    ensures Carries(Collect(Entries(s)), "state", Str(s.state))
    ensures Carries(Collect(Entries(s)), "env", EnvJson(s.env))
    ensures Carries(Collect(Entries(s)), "web_url", Str(s.webURL))
    ensures Carries(Collect(Entries(s)), "version", Str(s.version))
    ensures Carries(Collect(Entries(s)), "open_ports", Str(NonEmpty(s.openPorts)))
    ensures Carries(Collect(Entries(s)), "desired_state", Str(s.desiredState))
    ensures Carries(Collect(Entries(s)), "desired_replicas", Num(s.desiredReplicas))
    ensures Carries(Collect(Entries(s)), "url", Str(s.url))
  {
    EntriesDistinct(s);
    CollectCarries(Entries(s), 8);
    CollectCarries(Entries(s), 9);
    CollectCarries(Entries(s), 10);
    CollectCarries(Entries(s), 11);
    CollectCarries(Entries(s), 12);
    CollectCarries(Entries(s), 13);
    CollectCarries(Entries(s), 14);
    CollectCarries(Entries(s), 15);
  }

  lemma EntriesKeys(s: Service)
    ensures forall k :: k in Collect(Entries(s)) ==> k in Keys
  {
    var e := Entries(s);
    assert forall i :: 0 <= i < |e| ==> e[i].key == Keys[i];
    forall k | k in Collect(e)
      ensures k in Keys
    {
      CollectKeys(e, k);
    }
  }

  /** The JSON object of a service: each pointer field's key is there exactly
      when the pointer is set, `env` and `open_ports` only when non-empty, and
      nothing else (in particular not the back-reference). */
  function Encode(s: Service): (p: Payload)
    ensures Carries(p, "instance", Str(s.instance)) && Carries(p, "name", Str(s.name))
    ensures Carries(p, "kind", Str(s.kind)) && Carries(p, "image", Str(s.image))
    ensures Carries(p, "size", Str(s.size)) && Carries(p, "replicas", Num(s.replicas))
    ensures Carries(p, "network", Str(s.network)) && Carries(p, "volume", Str(s.volume))
    ensures Carries(p, "state", Str(s.state)) && Carries(p, "env", EnvJson(s.env))
    ensures Carries(p, "web_url", Str(s.webURL)) && Carries(p, "version", Str(s.version))
    ensures Carries(p, "open_ports", Str(NonEmpty(s.openPorts)))
    ensures Carries(p, "desired_state", Str(s.desiredState)) && Carries(p, "desired_replicas", Num(s.desiredReplicas))
    ensures Carries(p, "url", Str(s.url))
    ensures forall k :: k in p ==> k in Keys
  {
    EntriesCarryFirst(s);
    EntriesCarryLast(s);
    EntriesKeys(s);
    var e := Entries(s);
    Collect(e)
  }

  /** Decoding a JSON object into a fresh service record. */
  function Decode(p: Payload): Service {
    Service(
      ReadString(p, "instance", None), ReadString(p, "name", None), ReadString(p, "kind", None),
      ReadString(p, "image", None), ReadString(p, "size", None), ReadNumber(p, "replicas", None),
      ReadString(p, "network", None), ReadString(p, "volume", None), ReadString(p, "state", None),
      ReadEnv(p), ReadString(p, "web_url", None), ReadString(p, "version", None),
      ReadPlain(p, "open_ports"), ReadString(p, "desired_state", None), ReadNumber(p, "desired_replicas", None),
      ReadString(p, "url", None), null)
  }

  /** The `env` object reads back as the map it was written from; an empty
      map is absent on the wire and reads back as empty. */
  lemma EnvRoundTrip(env: map<string, string>, p: Payload)
    requires Carries(p, "env", EnvJson(env))
    ensures ReadEnv(p) == env
  {
    if env != map[] {
      var fields := map k | k in env :: JString(env[k]);
      assert p["env"] == JObject(fields);
      var back := map k | k in fields && fields[k].JString? :: fields[k].s;
      assert back.Keys == env.Keys;
      assert forall k :: k in env ==> back[k] == env[k];
    }
  }

  /** Encoding loses nothing but the back-reference: absent and present
      fields come back as they were. */
  lemma DecodeEncode(s: Service)
    ensures Decode(Encode(s)) == s.(r := null)
  {
    var p := Encode(s);
    EnvRoundTrip(s.env, p);
    var d := Decode(p);
    assert d.instance == s.instance && d.name == s.name && d.kind == s.kind && d.image == s.image;
    assert d.size == s.size && d.replicas == s.replicas && d.network == s.network && d.volume == s.volume;
    assert d.state == s.state && d.webURL == s.webURL && d.version == s.version && d.openPorts == s.openPorts;
    assert d.desiredState == s.desiredState && d.desiredReplicas == s.desiredReplicas && d.url == s.url;
  }

  /** Clearing `url` before encoding removes exactly the `url` key. */
  lemma EncodeWithoutURL(s: Service)
    ensures Encode(s.(url := None)) == Encode(s) - {"url"}
  {
    var e := Entries(s);
    assert DistinctKeys(e);
    assert Entries(s.(url := None)) == e[15 := Entry(e[15].key, None)];
    CollectClear(e, 15);
  }

  /** The payload of an update describes the service as given, minus its URL. */
  lemma UpdatePayloadDecodes(resource: ServiceResource, s: Service, clientErr: Option<Error>)
    requires s.url.Some?
    ensures "url" !in resource.Update(s, clientErr).sent.value.body.value
    ensures Decode(resource.Update(s, clientErr).sent.value.body.value) == s.(url := None, r := null)
  {
    EncodeWithoutURL(s);
    DecodeEncode(s.(url := None));
  }

  /** Ask for a new desired state: the payload holds `desired_state` only. */
  function SetState(s: Service, state: string, clientErr: Option<Error>): (x: Exchange<()>)
    requires s.url.Some? && s.r != null
    ensures x.sent == Some(Api(PATCH, Absolute(s.url.value), map[], Some(map["desired_state" := JString(state)])))
    ensures x.result == Outcome(clientErr)
  {
    var desired := Blank.(desiredState := Some(state));
    assert Encode(desired) == map["desired_state" := JString(state)];
    Exchange(Some(Api(PATCH, Absolute(s.url.value), map[], Some(Encode(desired)))), Outcome(clientErr))
  }

  /** A restart is the desired state "restarted". */
  function Restart(s: Service, clientErr: Option<Error>): (x: Exchange<()>)
    requires s.url.Some? && s.r != null
    ensures x == SetState(s, "restarted", clientErr)
    ensures x.sent.value.body.value == map["desired_state" := JString("restarted")]
  {
    SetState(s, "restarted", clientErr)
  }

  /** Ask for a replica count: the payload holds `desired_replicas` only. */
  function SetReplicas(s: Service, n: int, clientErr: Option<Error>): (x: Exchange<()>)
    requires s.url.Some? && s.r != null
    ensures x.sent == Some(Api(PATCH, Absolute(s.url.value), map[], Some(map["desired_replicas" := JNumber(n)])))
    ensures x.result == Outcome(clientErr)
  {
    var desired := Blank.(desiredReplicas := Some(n));
    assert Encode(desired) == map["desired_replicas" := JNumber(n)];
    Exchange(Some(Api(PATCH, Absolute(s.url.value), map[], Some(Encode(desired)))), Outcome(clientErr))
  }

  /** The body of a run request. */
  function RunBody(cmd: seq<string>, size: string): Payload {
    Field("command", Str(NonEmpty(Text.Join(cmd, " ")))) + Field("size", Str(NonEmpty(size)))
  }

  /** Run a one-off command: POST to the service URL + "run/"; `command` is
      the words joined by single spaces, left out when that is empty, and
      `size` is there exactly when given. On success the decoded `endpoint`
      is returned. */
  function Run(s: Service, cmd: seq<string>, size: string, got: Fetched<string>): (x: Exchange<string>)
    requires s.url.Some? && s.r != null
    ensures x.sent == Some(Api(POST, Absolute(s.url.value + "run/"), map[], Some(RunBody(cmd, size))))
    ensures var body := RunBody(cmd, size);
            && body.Keys <= {"command", "size"}
            && ("command" in body <==> !(|cmd| == 0 || (|cmd| == 1 && cmd[0] == "")))
            && ("command" in body ==> body["command"] == JString(Text.Join(cmd, " ")))
            && ("size" in body <==> size != "")
            && (size != "" ==> body["size"] == JString(size))
    ensures got.Failed? ==> x.result == Err(got.err)
    ensures got.Got? ==> x.result == Ok(got.value)
  {
    Text.JoinEmpty(cmd, " ");
    var sent := Some(Api(POST, Absolute(s.url.value + "run/"), map[], Some(RunBody(cmd, size))));
    match got
    case Failed(e) => Exchange(sent, Err(e))
    case Got(_, endpoint) => Exchange(sent, Ok(endpoint))
  }

  /** The command a run request carries splits back into its words, when
      no word holds a space. */
  lemma RunCommandRecoversWords(s: Service, cmd: seq<string>, size: string, got: Fetched<string>)
    requires s.url.Some? && s.r != null
    requires |cmd| >= 1 && cmd != [""]
    requires forall i :: 0 <= i < |cmd| ==> ' ' !in cmd[i]
    ensures var body := Run(s, cmd, size, got).sent.value.body.value;
            "command" in body && body["command"].JString? && Text.Split(body["command"].s, ' ') == cmd
  {
    Text.SplitJoin(cmd);
  }
}
