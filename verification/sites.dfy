/** The site facade: the `Site` record, its field-presence encoding, the
    lookup with its not-found message, the guarded delete and adding a user. */
module Sites {
  import opened Http
  import opened Codec
  import Text
  import Auth

  /** The facade that fetched a record; records point back at it. */
  class SiteResource {
    const client: Auth.Client

    constructor (client: Auth.Client)
      ensures this.client == client
    {
      this.client := client;
    }

    /** List sites, optionally of one resource group; on success every
        record of the decoded slice is made to point back here, in place. */
    method List(group: Option<ResourceGroup>, got: Fetched<array<Site>>) returns (x: Exchange<array<Site>>)
      modifies if got.Got? then {got.value} else {}
      ensures x.sent == Some(ListRequest(group))
      ensures got.Failed? ==> x.result == Err(got.err)
      ensures got.Got? ==> x.result == Ok(got.value)
      ensures got.Got? ==> forall k :: 0 <= k < got.value.Length ==> got.value[k] == old(got.value[k]).(r := this)
    {
      var sent := Some(ListRequest(group));
      match got
      case Failed(e) =>
        x := Exchange(sent, Err(e));
      case Got(_, res) =>
        var i := 0;
        while i < res.Length
          invariant 0 <= i <= res.Length
          invariant forall k :: 0 <= k < i ==> res[k] == old(res[k]).(r := this)
          invariant forall k :: i <= k < res.Length ==> res[k] == old(res[k])
        {
          res[i] := res[i].(r := this);
          i := i + 1;
        }
        x := Exchange(sent, Ok(res));
    }

    /** Fetch one site: the client's error is passed on, any answer yields
        the record pointing back here (there is no status check of its own). */
    function FindOne(target: Target, query: map<string, string>, got: Fetched<Site>): (x: Exchange<Site>)
      ensures x.sent == Some(Api(GET, target, query, None))
      ensures x.result.Ok? <==> got.Got?
      ensures got.Failed? ==> x.result == Err(got.err)
      ensures got.Got? ==> x.result.value == got.value.(r := this)
    {
      var sent := Some(Api(GET, target, query, None));
      match got
      case Failed(e) => Exchange(sent, Err(e))
      case Got(_, res) => Exchange(sent, Ok(res.(r := this)))
    }

    /** Look a site up by name, optionally within a resource group. A
        not-found error becomes a message naming the site, and the group
        when one is given; any other outcome is the lookup's own. */
    method Get(name: string, group: Option<ResourceGroup>, got: Fetched<Site>) returns (x: Exchange<Site>)
      ensures x.sent == Some(Api(GET, BasePath("sites/find/"), FindQuery(name, group), None))
      ensures got == Failed(NotFound) ==> x.result.Err? && x.result.error.Text?
      ensures got == Failed(NotFound) && group.None? ==>
                x.result.error.text == "site " + Text.Quote(name) + " was not found"
      ensures got == Failed(NotFound) && group.Some? ==>
                x.result.error.text == "site " + Text.Quote(name) + " was not found"
                                       + " in resource group " + Text.Quote(group.value.name)
      ensures got == Failed(NotFound) ==> x.result.error.text == NotFoundMessage(name, group)
      ensures got.Failed? && got.err != NotFound ==> x.result == Err(got.err)
      ensures got.Got? ==> x.result == Ok(got.value.(r := this))
    {
      var query := FindQuery(name, group);
      x := FindOne(BasePath("sites/find/"), query, got);
      if got == Failed(NotFound) {
        var msg := "site " + Text.Quote(name) + " was not found";
        if group.Some? {
          msg := msg + " in resource group " + Text.Quote(group.value.name);
        }
        x := Exchange(x.sent, Err(Text(msg)));
      }
    }

    /** Delete a site: without a URL nothing is sent and the answer is
        "missing site URL"; otherwise DELETE its URL. */
    function Delete(site: Site, clientErr: Option<Error>): (x: Exchange<()>)
      ensures x.sent.None? <==> site.url == ""
      ensures site.url == "" ==> x.result == Err(Text("missing site URL"))
      ensures site.url != "" ==> x.sent == Some(Api(DELETE, Absolute(site.url), map[], None))
      ensures site.url != "" ==> x.result == Outcome(clientErr)
    {
      if site.url == "" then Exchange(None, Err(Text("missing site URL")))
      else Exchange(Some(Api(DELETE, Absolute(site.url), map[], None)), Outcome(clientErr))
    }
  }

  /** A resource group, as far as sites use it: its name, its URL and its
      JSON form (the resource-group record is not part of this model). */
  datatype ResourceGroup = ResourceGroup(name: string, url: string, json: Json)

  /** A member of a site: the user's name and the role. */
  datatype SiteUser = SiteUser(username: string, role: string)

  /** A site record. `name`, `key` and `url` are plain strings; instances are
      kept in their JSON form (the instance record is not part of this
      model); `r` is the back-reference and is never serialised. */
  datatype Site = Site(
    name: string,
    key: string,
    resourceGroup: Option<ResourceGroup>,
    instances: seq<Json>,
    users: seq<SiteUser>,
    url: string,
    r: SiteResource?)

  /** The group filter of a query: the group's URL, when a group is given. */
  function GroupParam(group: Option<ResourceGroup>): (q: map<string, string>)
    ensures "resource_group" in q <==> group.Some?
    ensures group.Some? ==> q["resource_group"] == group.value.url
    ensures q.Keys <= {"resource_group"}
  {
    Param("resource_group", if group.Some? then Some(group.value.url) else None)
  }

  /** The listing request: `resource_group` is set only when a group is given. */
  function ListRequest(group: Option<ResourceGroup>): (req: Request)
    ensures req.Api? && req.verb == GET && req.target == BasePath("sites/") && req.body.None?
    ensures req.query == GroupParam(group)
  {
    Api(GET, BasePath("sites/"), GroupParam(group), None)
  }

  /** The lookup query: `name` always, `resource_group` only with a group. */
  function FindQuery(name: string, group: Option<ResourceGroup>): (q: map<string, string>)
    ensures "name" in q && q["name"] == name
    ensures "resource_group" in q <==> group.Some?
    ensures group.Some? ==> q["resource_group"] == group.value.url
    ensures q.Keys <= {"name", "resource_group"}
  {
    map["name" := name] + GroupParam(group)
  }

  /** The wire form of one member: `user` is a nested object and is always
      there (`omitempty` never drops a struct), holding `username` when it is
      non-empty; `role` is there when non-empty. */
  function UserJson(u: SiteUser): Json {
    JObject(map["user" := JObject(Field("username", Str(NonEmpty(u.username))))] + Field("role", Str(NonEmpty(u.role))))
  }

  /** The `users` array: left out when there are no users. */
  function UsersJson(users: seq<SiteUser>): (j: Option<Json>)
    ensures j.Some? <==> |users| > 0
    ensures j.Some? ==> j.value.JArray? && |j.value.items| == |users|
    ensures j.Some? ==> forall i :: 0 <= i < |users| ==> j.value.items[i] == UserJson(users[i])
  {
    if users == [] then None else Some(JArray(seq(|users|, i requires 0 <= i < |users| => UserJson(users[i]))))
  }

  /** The `instances` array: left out when there are none. */
  function InstancesJson(instances: seq<Json>): Option<Json> {
    if instances == [] then None else Some(JArray(instances))
  }

  /** The serialised fields of a site, under their JSON tags. */
  function Entries(s: Site): seq<Entry> {
    [Entry("name", Str(NonEmpty(s.name))), Entry("key", Str(NonEmpty(s.key))),
     Entry("resource_group", if s.resourceGroup.Some? then Some(s.resourceGroup.value.json) else None),
     Entry("instances", InstancesJson(s.instances)), Entry("users", UsersJson(s.users)),
     Entry("url", Str(NonEmpty(s.url)))]
  }

  /** The JSON object of a site: empty strings, a missing group and empty
      arrays are left out, and there is no other key. */
  function Encode(s: Site): (p: Payload)
    ensures Carries(p, "name", Str(NonEmpty(s.name))) && Carries(p, "key", Str(NonEmpty(s.key)))
    ensures Carries(p, "resource_group", if s.resourceGroup.Some? then Some(s.resourceGroup.value.json) else None)
    ensures Carries(p, "instances", InstancesJson(s.instances)) && Carries(p, "users", UsersJson(s.users))
    ensures Carries(p, "url", Str(NonEmpty(s.url)))
    ensures p.Keys <= {"name", "key", "resource_group", "instances", "users", "url"}
  {
    var e := Entries(s);
    assert DistinctKeys(e);
    CollectCarries(e, 0);
    CollectCarries(e, 1);
    CollectCarries(e, 2);
    CollectCarries(e, 3);
    CollectCarries(e, 4);
    CollectCarries(e, 5);
    forall k | k in Collect(e)
      ensures k in {"name", "key", "resource_group", "instances", "users", "url"}
    {
      CollectKeys(e, k);
    }
    Collect(e)
  }

  /** Reading one member back. */
  function ReadUser(j: Json): SiteUser {
    if j.JObject? then
      var user := if "user" in j.fields && j.fields["user"].JObject? then ReadPlain(j.fields["user"].fields, "username") else "";
      SiteUser(user, ReadPlain(j.fields, "role"))
    else SiteUser("", "")
  }

  /** Reading the members of a site back from its payload. */
  function ReadUsers(p: Payload): seq<SiteUser> {
    if "users" in p && p["users"].JArray? then
      var items := p["users"].items;
      seq(|items|, i requires 0 <= i < |items| => ReadUser(items[i]))
    else []
  }

  /** The plain fields and the members of a site survive encoding. */
  lemma DecodeEncode(s: Site)
    ensures ReadPlain(Encode(s), "name") == s.name && ReadPlain(Encode(s), "key") == s.key
    ensures ReadPlain(Encode(s), "url") == s.url
    ensures ReadUsers(Encode(s)) == s.users
  {
    var p := Encode(s);
    if s.users != [] {
      var back := ReadUsers(p);
      assert |back| == |s.users|;
      forall i | 0 <= i < |s.users|
        ensures back[i] == s.users[i]
      {
        var u := s.users[i];
        var user := Field("username", Str(NonEmpty(u.username)));
        assert UserJson(u).fields["user"] == JObject(user);
        ReadPlainInvertsNonEmpty(user, "username", u.username);
        ReadPlainInvertsNonEmpty(UserJson(u).fields, "role", u.role);
      }
    }
  }

  /** Add a user to a site: POST `site_users/` with the whole site under
      `site` (always present), and `email` and `role` only when non-empty. */
  function AddUser(site: Site, email: string, role: string, clientErr: Option<Error>): (x: Exchange<()>)
    requires site.r != null
    ensures x.sent.Some? && x.sent.value.Api? && x.sent.value.verb == POST
    ensures x.sent.value.target == BasePath("site_users/") && x.sent.value.query == map[]
    ensures x.sent.value.body.Some?
    ensures var body := x.sent.value.body.value;
            && body.Keys <= {"site", "email", "role"}
            && "site" in body && body["site"] == JObject(Encode(site))
            && Carries(body, "email", Str(NonEmpty(email)))
            && Carries(body, "role", Str(NonEmpty(role)))
    ensures x.result == Outcome(clientErr)
  {
    var body := map["site" := JObject(Encode(site))] + Field("email", Str(NonEmpty(email))) + Field("role", Str(NonEmpty(role)));
    Exchange(Some(Api(POST, BasePath("site_users/"), map[], Some(body))), Outcome(clientErr))
  }

  /** An error text names the site `name`: it starts `site "` + name + `"`. */
  predicate NamesSite(text: string, name: string) {
    |text| >= |name| + 7 && text[..6] == "site \"" && text[6..6 + |name|] == name && text[6 + |name|] == '"'
  }

  /** The message of a failed lookup: the site, and the group when given. */
  function NotFoundMessage(name: string, group: Option<ResourceGroup>): string {
    "site " + Text.Quote(name) + " was not found"
    + (if group.Some? then " in resource group " + Text.Quote(group.value.name) else "")
  }

  /** The not-found error of a lookup names the site it looked for, and
      names the group exactly when one was given. */
  lemma GetNotFoundNamesSite(name: string, group: Option<ResourceGroup>)
    ensures NamesSite(NotFoundMessage(name, group), name)
    ensures var text := NotFoundMessage(name, group);
            group.None? ==> text[|text| - 14..] == " was not found"
    ensures var text := NotFoundMessage(name, group);
            group.Some? ==> var tail := " in resource group " + Text.Quote(group.value.name);
                            |text| >= |tail| && text[|text| - |tail|..] == tail
  {
    var text := NotFoundMessage(name, group);
    var head := "site " + Text.Quote(name) + " was not found";
    assert head[..6] == "site \"";
    assert head[6..6 + |name|] == name;
    assert text[..|head|] == head;
  }

  /** A character of the not-found message that is neither in the fixed
      text nor a quote comes from the site or the group name. */
  lemma NotFoundMessageChars(c: char, name: string, group: Option<ResourceGroup>)
    requires c != '"' && c !in "site  was not found in resource group "
    requires c !in name && (group.Some? ==> c !in group.value.name)
    ensures c !in NotFoundMessage(name, group)
  {
    Text.InConcat(c, "\"", name);
    Text.InConcat(c, "\"" + name, "\"");
    assert Text.Quote(name) == "\"" + name + "\"";
    Text.InConcat(c, "site ", Text.Quote(name));
    Text.InConcat(c, "site " + Text.Quote(name), " was not found");
    var head := "site " + Text.Quote(name) + " was not found";
    if group.Some? {
      var g := group.value.name;
      assert " in resource group " + Text.Quote(g) == " in resource group " + "\"" + g + "\"";
      Text.InConcat(c, " in resource group ", "\"");
      Text.InConcat(c, " in resource group " + "\"", g);
      Text.InConcat(c, " in resource group " + "\"" + g, "\"");
      Text.InConcat(c, head, " in resource group " + Text.Quote(g));
    } else {
      assert NotFoundMessage(name, group) == head + "";
      Text.InConcat(c, head, "");
    }
  }

  /** `fmt.Errorf(msg)` with the not-found message as its format, as the
      lookup builds it: the message is read as a format string. */
  function NotFoundAsWritten(name: string, group: Option<ResourceGroup>): (e: Error)
    requires '[' !in name && (group.Some? ==> '[' !in group.value.name)
    ensures e.Text?
    ensures '%' !in name && (group.Some? ==> '%' !in group.value.name) ==>
              e.text == NotFoundMessage(name, group)
  {
    NotFoundMessageChars('[', name, group);
    if '%' !in name && (group.Some? ==> '%' !in group.value.name) then
      NotFoundMessageChars('%', name, group);
      Text.FormatNoArgsPlain(NotFoundMessage(name, group));
      Text(Text.FormatNoArgs(NotFoundMessage(name, group)))
    else Text(Text.FormatNoArgs(NotFoundMessage(name, group)))
  }

  /** The message around a name with one `%` in it, cut at the `%`. */
  lemma MessageAtPercent(pre: string, v: char, post: string)
    ensures NotFoundMessage(pre + ['%', v] + post, None) == ("site \"" + pre) + (['%', v] + (post + "\" was not found"))
  {
  }

  /** The text on either side of the `%` holds neither `%` nor `[`. */
  lemma MessageSidesPlain(pre: string, post: string)
    requires '%' !in pre && '[' !in pre && '%' !in post && '[' !in post
    ensures '%' !in "site \"" + pre && '[' !in "site \"" + pre
    ensures '%' !in post + "\" was not found" && '[' !in post + "\" was not found"
  {
    Text.InConcat('%', "site \"", pre);
    Text.InConcat('[', "site \"", pre);
    Text.InConcat('%', post, "\" was not found");
    Text.InConcat('[', post, "\" was not found");
  }

  /** Formatting the message cut at the `%`: only the directive changes. */
  lemma MessageFormatted(pre: string, v: char, post: string)
    requires '%' !in pre && '[' !in pre && '%' !in post && '[' !in post
    requires 'a' <= v <= 'z' || 'A' <= v <= 'Z'
    ensures Text.FormatNoArgs(("site \"" + pre) + (['%', v] + (post + "\" was not found")))
            == ("site \"" + pre) + ("%!" + [v] + "(MISSING)" + (post + "\" was not found"))
  {
    MessageSidesPlain(pre, post);
    var head, tail := "site \"" + pre, post + "\" was not found";
    Text.InConcat('[', ['%', v], tail);
    Text.FormatNoArgsPrefix(head, ['%', v] + tail);
    Text.FormatNoArgsMissing(v, tail);
    Text.FormatNoArgsPlain(tail);
  }

  /** A site whose name holds `%` and a letter, such as `50%off`: the error
      the lookup builds no longer names it, because the `%` and the letter
      were taken for a directive with a missing argument. */
  lemma PercentInSiteName(pre: string, v: char, post: string)
    requires '%' !in pre && '[' !in pre && '%' !in post && '[' !in post
    requires 'a' <= v <= 'z' || 'A' <= v <= 'Z'
    ensures NotFoundAsWritten(pre + ['%', v] + post, None).text
            == "site \"" + pre + "%!" + [v] + "(MISSING)" + post + "\" was not found"
    ensures !NamesSite(NotFoundAsWritten(pre + ['%', v] + post, None).text, pre + ['%', v] + post)
  {
    var name := pre + ['%', v] + post;
    MessageAtPercent(pre, v, post);
    MessageFormatted(pre, v, post);
    assert '[' !in name by {
      Text.InConcat('[', pre, ['%', v]);
      Text.InConcat('[', pre + ['%', v], post);
    }
    var out := ("site \"" + pre) + ("%!" + [v] + "(MISSING)" + (post + "\" was not found"));
    assert NotFoundAsWritten(name, None).text == out;
    assert out == "site \"" + pre + "%!" + [v] + "(MISSING)" + post + "\" was not found";
    assert out[6 + |pre| + 1] == '!' && name[|pre| + 1] == v;
  }

  /** The site `50%off`: its not-found error reads `site "50%!o(MISSING)ff"
      was not found`. */
  lemma FiftyPercentOff()
    ensures !NamesSite(NotFoundAsWritten("50%off", None).text, "50%off")
  {
    assert "50" + ['%', 'o'] + "ff" == "50%off";
    PercentInSiteName("50", 'o', "ff");
  }
}
