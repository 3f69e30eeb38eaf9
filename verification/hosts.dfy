/** The host-name facade: the `HostName` record, its field-presence encoding,
    and the requests the facade and the record's own operations send. */
module Hosts {
  import opened Http
  import opened Codec
  import Auth

  /** The facade that fetched a record; records point back at it. */
  class HostNameResource {
    const client: Auth.Client

    constructor (client: Auth.Client)
      ensures this.client == client
    {
      this.client := client;
    }

    /** Fetch one host name: a 404 is "host not found" and yields no record;
        any other answer yields the record, pointing back here. */
    function FindOne(target: Target, query: map<string, string>, got: Fetched<HostName>): (x: Exchange<HostName>)
      ensures x.sent == Some(Api(GET, target, query, None))
      ensures x.result.Ok? <==> got.Got? && got.status != 404
      ensures got.Failed? ==> x.result == Err(got.err)
      ensures got.Got? && got.status == 404 ==> x.result == Err(Text("host not found"))
      ensures x.result.Ok? ==> x.result.value == got.value.(r := this)
    {
      var sent := Some(Api(GET, target, query, None));
      match got
      case Failed(e) => Exchange(sent, Err(e))
      case Got(status, res) =>
        if status == 404 then Exchange(sent, Err(Text("host not found")))
        else Exchange(sent, Ok(res.(r := this)))
    }

    /** Fetch the host name at a URL taken from another record. */
    function GetFromURL(value: string, got: Fetched<HostName>): (x: Exchange<HostName>)
      ensures x.sent == Some(Api(GET, Absolute(value), map[], None))
      ensures x.result.Ok? <==> got.Got? && got.status != 404
      ensures got.Failed? ==> x.result == Err(got.err)
      ensures got.Got? && got.status == 404 ==> x.result == Err(Text("host not found"))
      ensures x.result.Ok? ==> x.result.value == got.value.(r := this)
    {
      FindOne(Absolute(value), map[], got)
    }

    /** Look a host name up by instance and host. */
    function Get(instanceURL: string, host: string, got: Fetched<HostName>): (x: Exchange<HostName>)
      ensures x.sent.Some? && x.sent.value.Api? && x.sent.value.verb == GET
      ensures x.sent.value.target == BasePath("hosts/find/")
      ensures x.sent.value.query.Keys == {"instance", "host"}
      ensures x.sent.value.query["instance"] == instanceURL && x.sent.value.query["host"] == host
      ensures x.result == FindOne(x.sent.value.target, x.sent.value.query, got).result
    {
      FindOne(BasePath("hosts/find/"), map["instance" := instanceURL, "host" := host], got)
    }

    /** List host names, optionally of one instance; on success every record
        of the decoded slice is made to point back here, in place. */
    method List(instanceURL: Option<string>, got: Fetched<array<HostName>>) returns (x: Exchange<array<HostName>>)
      modifies if got.Got? then {got.value} else {}
      ensures x.sent == Some(ListRequest(instanceURL))
      ensures got.Failed? ==> x.result == Err(got.err)
      ensures got.Got? ==> x.result == Ok(got.value)
      ensures got.Got? ==> forall k :: 0 <= k < got.value.Length ==> got.value[k] == old(got.value[k]).(r := this)
    {
      var sent := Some(ListRequest(instanceURL));
      match got
      case Failed(e) =>
        x := Exchange(sent, Err(e));
      case Got(_, res) =>
        var i := 0;
        while i < res.Length
          invariant 0 <= i <= res.Length
          invariant forall k :: 0 <= k < i ==> res[k] == old(res[k]).(r := this)
          invariant forall k :: i <= k < res.Length ==> res[k] == old(res[k])
        {
          res[i] := res[i].(r := this);
          i := i + 1;
        }
        x := Exchange(sent, Ok(res));
    }

    /** Update a host name: PATCH its own URL with every field but `url`. */
    function Update(hostName: HostName, clientErr: Option<Error>): (x: Exchange<()>)
      requires hostName.url.Some?
      ensures x.sent == Some(Api(PATCH, Absolute(hostName.url.value), map[], Some(Encode(hostName) - {"url"})))
      ensures x.result == Outcome(clientErr)
    {
      var body := hostName.(url := None);
      EncodeWithoutURL(hostName);
      Exchange(Some(Api(PATCH, Absolute(hostName.url.value), map[], Some(Encode(body)))), Outcome(clientErr))
    }

    /** Delete the host name at a URL; it fails exactly when the call fails. */
    function Delete(hostNameURL: string, clientErr: Option<Error>): (x: Exchange<()>)
      ensures x.sent == Some(Api(DELETE, Absolute(hostNameURL), map[], None))
      ensures x.result.Err? <==> clientErr.Some?
      ensures x.result.Err? ==> x.result.error == clientErr.value
    {
      Exchange(Some(Api(DELETE, Absolute(hostNameURL), map[], None)), Outcome(clientErr))
    }
  }

  /** The listing request: `instance` is set only when an instance is given. */
  function ListRequest(instanceURL: Option<string>): (req: Request)
    ensures req.Api? && req.verb == GET && req.target == BasePath("hosts/") && req.body.None?
    ensures Binds(req.query, "instance", instanceURL) && req.query.Keys <= {"instance"}
  {
    Api(GET, BasePath("hosts/"), Param("instance", instanceURL), None)
  }

  /** A host-name record: every `Option` is a Go pointer field; `r` is the
      back-reference to the facade and is never serialised. */
  datatype HostName = HostName(
    instance: Option<string>,
    host: Option<string>,
    keyPair: Option<string>,
    url: Option<string>,
    r: HostNameResource?)

  /** The serialised fields of a host name, under their JSON tags. */
  function Entries(h: HostName): seq<Entry> {
    [Entry("instance", Str(h.instance)), Entry("host", Str(h.host)),
     Entry("keypair", Str(h.keyPair)), Entry("url", Str(h.url))]
  }

  /** The JSON object of a host name: each key is there exactly when its
      pointer is set, and there is no other key. */
  function Encode(h: HostName): (p: Payload)
    ensures Carries(p, "instance", Str(h.instance)) && Carries(p, "host", Str(h.host))
    ensures Carries(p, "keypair", Str(h.keyPair)) && Carries(p, "url", Str(h.url))
    ensures p.Keys <= {"instance", "host", "keypair", "url"}
  {
    var e := Entries(h);
    assert DistinctKeys(e);
    CollectCarries(e, 0);
    CollectCarries(e, 1);
    CollectCarries(e, 2);
    CollectCarries(e, 3);
    forall k | k in Collect(e)
      ensures k in {"instance", "host", "keypair", "url"}
    {
      CollectKeys(e, k);
    }
    Collect(e)
  }

  /** Decoding a JSON object into an existing record: keys that are absent
      leave their field as it was, null clears it. */
  function DecodeInto(p: Payload, h: HostName): HostName {
    h.(instance := ReadString(p, "instance", h.instance),
       host := ReadString(p, "host", h.host),
       keyPair := ReadString(p, "keypair", h.keyPair),
       url := ReadString(p, "url", h.url))
  }

  /** Encoding loses nothing but the back-reference: decoded into a blank
      record, an encoded host name comes back as it was. */
  lemma DecodeEncode(h: HostName)
    ensures DecodeInto(Encode(h), HostName(None, None, None, None, null)) == h.(r := null)
  {
  }

  /** Clearing `url` before encoding removes exactly the `url` key. */
  lemma EncodeWithoutURL(h: HostName)
    ensures Encode(h.(url := None)) == Encode(h) - {"url"}
  {
    var e := Entries(h);
    assert DistinctKeys(e);
    assert Entries(h.(url := None)) == e[3 := Entry(e[3].key, None)];
    CollectClear(e, 3);
  }

  /** The payload that detaches a key pair: `keypair` bound to null. */
  const DetachPayload: Payload := map["keypair" := JNull]

  /** Detach the key pair: PATCH the host's own URL with `keypair` set to
      an explicit null, and no other key. */
  function DetachKeyPair(h: HostName, clientErr: Option<Error>): (x: Exchange<()>)
    requires h.url.Some? && h.r != null
    ensures x.sent.Some? && x.sent.value.Api? && x.sent.value.verb == PATCH
    ensures x.sent.value.target == Absolute(h.url.value) && x.sent.value.query == map[]
    ensures x.sent.value.body.Some? && x.sent.value.body.value.Keys == {"keypair"}
    ensures x.sent.value.body.value["keypair"] == JNull
    ensures x.result.Err? <==> clientErr.Some?
    ensures clientErr.Some? ==> x.result == Err(clientErr.value)
  {
    Exchange(Some(Api(PATCH, Absolute(h.url.value), map[], Some(DetachPayload))), Outcome(clientErr))
  }

  /** Applied to any record, the detach payload clears the key pair and
      leaves every other field alone. */
  lemma DetachClearsKeyPair(h: HostName)
    ensures DecodeInto(DetachPayload, h) == h.(keyPair := None)
  {
  }

  /** No encoded record can do what the detach payload does: an encoded
      `keypair` is either absent (the field is kept) or a string (it is set),
      never null. */
  lemma EncodeNeverDetaches(h: HostName)
    ensures Encode(h) != DetachPayload
    ensures "keypair" in Encode(h) ==> Encode(h)["keypair"].JString?
  {
  }
}
