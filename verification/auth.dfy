/** The client's credentials and its one-time authentication check: the
    OAuth 2.0 password grant (section 4.3 of RFC 6749), the refresh grant
    (section 6 of RFC 6749), the bearer header (section 2.1 of RFC 6750) and
    token revocation (section 2.1 of RFC 7009), with the library's own,
    simpler, failure classification.

    The pure functions below give the meaning of each step on a `Session`
    value; the `Client` class performs the same steps on its fields and its
    methods are proved against those functions. */
module Auth {
  import opened Http
  import Text

  const TokenURL := "https://identity.gondor.io/oauth/token/"
  const RevokeURL := "https://identity.gondor.io/oauth/revoke_token/"

  const MissingTokenMessage := "auth: access token not present"
  const AuthFailedMessage := "authentication failed"

  /** The credential part of the client options. */
  datatype Credentials = Credentials(id: string, username: string, accessToken: string, refreshToken: string)

  /** The body of the identity service's token response; a key missing from
      the JSON decodes to "". */
  datatype TokenPayload = TokenPayload(error: string, errorDescription: string, accessToken: string, refreshToken: string)

  /** The client state the authentication code touches: credentials, the
      `authed` flag and whether the run-once guard has fired. */
  datatype Session = Session(creds: Credentials, authed: bool, onceDone: bool) {
    /** `authed` is only ever set inside the guarded check. */
    predicate Valid() {
      !onceDone ==> !authed
    }
  }

  /** What one call of the authentication check does. */
  datatype Checked = Checked(next: Session, authed: bool, err: Option<Error>, sent: seq<Request>)

  function PasswordGrant(c: Credentials, username: string, password: string): Request {
    Form(TokenURL, map["grant_type" := "password", "client_id" := c.id, "username" := username, "password" := password])
  }

  function RefreshGrant(c: Credentials): Request {
    Form(TokenURL, map["grant_type" := "refresh_token", "client_id" := c.id, "refresh_token" := c.refreshToken])
  }

  function Revocation(c: Credentials): Request {
    Form(RevokeURL, map["client_id" := c.id, "token" := c.refreshToken])
  }

  /** The probe of the API root, carrying the current access token. */
  function Probe(c: Credentials): Request {
    Raw(GET, BasePath("/"), map["Authorization" := "Bearer " + c.accessToken])
  }

  /** The classification a token response goes through, for the password
      grant and the refresh grant alike: only a transport error, a 401, an
      undecodable body or a non-empty `error` field is a failure. */
  function Grant(reply: Reply<TokenPayload>): (r: Result<TokenPayload>)
    ensures r.Ok? <==> reply.Replied? && reply.status != 401 && reply.body.Payload? && reply.body.value.error == ""
    ensures r.Ok? ==> r.value == reply.body.value
    ensures reply.TransportFailure? ==> r == Err(reply.err)
    ensures reply.Replied? && reply.status == 401 ==> r == Err(Text(AuthFailedMessage))
    ensures reply.Replied? && reply.status != 401 && reply.body.Malformed? ==> r == Err(reply.body.err)
    ensures reply.Replied? && reply.status != 401 && reply.body.Payload? && reply.body.value.error != "" ==>
              r == Err(Text("authentication request failed: " + Text.Quote(reply.body.value.errorDescription)))
  {
    match reply
    case TransportFailure(e) => Err(e)
    case Replied(status, _, body) =>
      if status == 401 then Err(Text(AuthFailedMessage))
      else match body
        case Malformed(e) => Err(e)
        case Payload(p) =>
          if p.error != "" then Err(Text("authentication request failed: " + Text.Quote(p.errorDescription)))
          else Ok(p)
  }

  /** Credentials after a password grant for `username`. */
  function AfterLogin(c: Credentials, username: string, reply: Reply<TokenPayload>): (c': Credentials)
    ensures c'.id == c.id
    ensures Grant(reply).Err? ==> c' == c
    ensures Grant(reply).Ok? ==>
              c'.username == username && c'.accessToken == Grant(reply).value.accessToken
              && c'.refreshToken == Grant(reply).value.refreshToken
  {
    match Grant(reply)
    case Err(_) => c
    case Ok(p) => c.(username := username, accessToken := p.accessToken, refreshToken := p.refreshToken)
  }

  /** Credentials after a refresh grant: the token pair may change, nothing else. */
  function AfterRefresh(c: Credentials, reply: Reply<TokenPayload>): (c': Credentials)
    ensures c'.id == c.id && c'.username == c.username
    ensures Grant(reply).Err? ==> c' == c
    ensures Grant(reply).Ok? ==>
              c'.accessToken == Grant(reply).value.accessToken && c'.refreshToken == Grant(reply).value.refreshToken
  {
    match Grant(reply)
    case Err(_) => c
    case Ok(p) => c.(accessToken := p.accessToken, refreshToken := p.refreshToken)
  }

  /** The outcome of a revocation: only a 200 succeeds, and then the client
      is logged out; the returned options are the cleared credentials. */
  function Revoke(c: Credentials, reply: Reply<()>): (r: Result<Credentials>)
    ensures r.Ok? <==> reply.Replied? && reply.status == 200
    ensures r.Ok? ==> r.value == Credentials(c.id, "", "", "")
    ensures reply.TransportFailure? ==> r == Err(reply.err)
    ensures reply.Replied? && reply.status != 200 ==> r == Err(Text("unable to log out (" + reply.statusText + ")"))
  {
    match reply
    case TransportFailure(e) => Err(e)
    case Replied(status, statusText, _) =>
      if status != 200 then Err(Text("unable to log out (" + statusText + ")"))
      else Ok(c.(username := "", accessToken := "", refreshToken := ""))
  }

  function AfterRevoke(c: Credentials, reply: Reply<()>): (c': Credentials)
    ensures Revoke(c, reply).Err? ==> c' == c
    ensures Revoke(c, reply).Ok? ==> c' == Revoke(c, reply).value
  {
    match Revoke(c, reply)
    case Err(_) => c
    case Ok(cleared) => cleared
  }

  /** One call of the authentication check. The first call probes the API
      root with the access token and, on a 401, runs the refresh grant; every
      later call sends nothing and reports `authed` with no error. The first
      call's error is not kept: `err` is local to each call. */
  function Check(s: Session, probe: Reply<()>, refresh: Reply<TokenPayload>): (k: Checked)
    requires s.Valid()
    ensures k.next.Valid() && k.next.onceDone && k.authed == k.next.authed
    ensures s.onceDone ==> k == Checked(s, s.authed, None, [])
    ensures !s.onceDone ==> (k.authed <==> k.err.None?)
    ensures !s.onceDone && s.creds.accessToken == "" ==>
              k.err == Some(Text(MissingTokenMessage)) && k.sent == [] && k.next.creds == s.creds
    ensures !s.onceDone && s.creds.accessToken != "" ==> 1 <= |k.sent| <= 2 && k.sent[0] == Probe(s.creds)
    ensures |k.sent| == 2 <==> !s.onceDone && s.creds.accessToken != "" && probe.Replied? && probe.status == 401
    ensures |k.sent| == 2 ==>
              k.sent[1] == RefreshGrant(s.creds) && k.next.creds == AfterRefresh(s.creds, refresh)
              && (k.authed <==> Grant(refresh).Ok?)
    ensures |k.sent| == 2 && Grant(refresh).Err? ==> k.err == Some(Grant(refresh).error)
    ensures |k.sent| != 2 ==> k.next.creds == s.creds
    ensures !s.onceDone && s.creds.accessToken != "" && probe.TransportFailure? ==> k.err == Some(probe.err)
    ensures !s.onceDone && s.creds.accessToken != "" && probe.Replied? && probe.status == 200 ==> k.authed
    ensures !s.onceDone && s.creds.accessToken != "" && probe.Replied? && probe.status != 200 && probe.status != 401 ==>
              k.err == Some(Text("auth: unhandled status code returned (" + probe.statusText + ")"))
  {
    if s.onceDone then Checked(s, s.authed, None, [])
    else
      var done := s.(onceDone := true);
      if s.creds.accessToken == "" then
        Checked(done, s.authed, Some(Text(MissingTokenMessage)), [])
      else match probe
        case TransportFailure(e) => Checked(done, s.authed, Some(e), [Probe(s.creds)])
        case Replied(status, statusText, _) =>
          if status == 200 then
            Checked(done.(authed := true), true, None, [Probe(s.creds)])
          else if status == 401 then
            var g := Grant(refresh);
            var next := Session(AfterRefresh(s.creds, refresh), s.authed || g.Ok?, true);
            Checked(next, next.authed, if g.Ok? then None else Some(g.error), [Probe(s.creds), RefreshGrant(s.creds)])
          else
            Checked(done, s.authed, Some(Text("auth: unhandled status code returned (" + statusText + ")")), [Probe(s.creds)])
  }

  /** The inputs of one call of the check. */
  datatype Attempt = Attempt(probe: Reply<()>, refresh: Reply<TokenPayload>)

  /** What one caller of the check observes. */
  datatype Answer = Answer(authed: bool, err: Option<Error>)

  /** A sequence of calls of the check, one after another. */
  datatype Run = Run(last: Session, answers: seq<Answer>, sent: seq<Request>)

  function CheckAll(s: Session, attempts: seq<Attempt>): (run: Run)
    requires s.Valid()
    ensures |run.answers| == |attempts| && run.last.Valid()
    decreases |attempts|
  {
    if attempts == [] then Run(s, [], [])
    else
      var k := Check(s, attempts[0].probe, attempts[0].refresh);
      var rest := CheckAll(k.next, attempts[1..]);
      Run(rest.last, [Answer(k.authed, k.err)] + rest.answers, k.sent + rest.sent)
  }

  /** Once the guard has fired, any number of calls sends nothing, changes
      nothing and answers `authed` with no error. */
  lemma {:induction false} GuardedChecksAreSilent(s: Session, attempts: seq<Attempt>)
    requires s.Valid() && s.onceDone
    ensures CheckAll(s, attempts).last == s
    ensures CheckAll(s, attempts).sent == []
    ensures forall i :: 0 <= i < |attempts| ==> CheckAll(s, attempts).answers[i] == Answer(s.authed, None)
    decreases |attempts|
  {
    if attempts != [] {
      GuardedChecksAreSilent(s, attempts[1..]);
    }
  }

  /** However many calls are made, the probe (and at most one refresh) is
      sent by the first alone, the session ends as the first call left it,
      and every later caller sees the first call's `authed` with no error. */
  lemma SingleVerification(s: Session, attempts: seq<Attempt>)
    requires s.Valid() && |attempts| >= 1
    ensures var first := Check(s, attempts[0].probe, attempts[0].refresh);
            var run := CheckAll(s, attempts);
            && run.last == first.next
            && run.sent == first.sent && |run.sent| <= 2
            && run.answers[0] == Answer(first.authed, first.err)
            && forall i :: 1 <= i < |attempts| ==> run.answers[i] == Answer(first.authed, None)
  {
    var first := Check(s, attempts[0].probe, attempts[0].refresh);
    GuardedChecksAreSilent(first.next, attempts[1..]);
    var rest := CheckAll(first.next, attempts[1..]);
    assert first.sent + rest.sent == first.sent;
    forall i | 1 <= i < |attempts|
      ensures CheckAll(s, attempts).answers[i] == Answer(first.authed, None)
    {
      assert CheckAll(s, attempts).answers[i] == rest.answers[i - 1];
    }
  }

  /** An expired access token is replaced transparently: a 401 probe followed
      by a successful refresh authenticates the client with the new token. */
  lemma RefreshTransparency(s: Session, refresh: Reply<TokenPayload>, statusText: string)
    requires s.Valid() && !s.onceDone && s.creds.accessToken != ""
    requires Grant(refresh).Ok? && Grant(refresh).value.accessToken != s.creds.accessToken
    ensures var k := Check(s, Replied(401, statusText, Payload(())), refresh);
            k.authed && k.err == None && k.next.creds.accessToken != s.creds.accessToken
            && k.next.creds.accessToken == Grant(refresh).value.accessToken
  {
  }

  /** A successful login followed by a refresh the identity service rejects:
      the refresh error carries the quoted description and the tokens from
      the login stay in place. */
  lemma LoginThenRejectedRefresh(c: Credentials)
    ensures var afterLogin := AfterLogin(c, "u", Replied(200, "200 OK", Payload(TokenPayload("", "", "A1", "R1"))));
            var rejected: Reply<TokenPayload> := Replied(400, "400 Bad Request", Payload(TokenPayload("invalid_grant", "bad creds", "", "")));
            && afterLogin == Credentials(c.id, "u", "A1", "R1")
            && Grant(rejected) == Err(Text("authentication request failed: \"bad creds\""))
            && AfterRefresh(afterLogin, rejected) == afterLogin
  {
    assert Text.Quote("bad creds") == "\"bad creds\"";
    assert "authentication request failed: " + "\"bad creds\"" == "authentication request failed: \"bad creds\"";
  }

  /** A successful refresh takes both tokens from the answer, so an answer
      without `refresh_token` (which section 6 of RFC 6749 allows) leaves an
      access token beside an empty refresh token: the credentials are then
      neither all empty nor all set. The same holds when the check refreshes
      after a 401. */
  lemma RefreshWithoutRefreshToken(s: Session, statusText: string, refresh: Reply<TokenPayload>)
    requires s.Valid() && !s.onceDone && s.creds.accessToken != ""
    requires Grant(refresh).Ok? && Grant(refresh).value.accessToken != "" && Grant(refresh).value.refreshToken == ""
    ensures AfterRefresh(s.creds, refresh).accessToken != "" && AfterRefresh(s.creds, refresh).refreshToken == ""
    ensures var k := Check(s, Replied(401, statusText, Payload(())), refresh);
            k.authed && k.next.creds.accessToken != "" && k.next.creds.refreshToken == ""
  {
  }

  /** A password grant counts as a success on any status but 401 whose body
      decodes with an empty `error`, so an answer without tokens (a 500 with
      body `{}`, say) stores the username beside two empty tokens. */
  lemma LoginWithoutTokens(c: Credentials, username: string, status: int, statusText: string)
    requires status != 401 && username != ""
    ensures var reply: Reply<TokenPayload> := Replied(status, statusText, Payload(TokenPayload("", "", "", "")));
            Grant(reply).Ok? && AfterLogin(c, username, reply) == Credentials(c.id, username, "", "")
  {
  }

  /** The client's authentication state, updated in place. `id` is the
      client ID, which nothing here changes. */
  class Client {
    const id: string
    var username: string
    var accessToken: string
    var refreshToken: string
    var authed: bool
    /** the run-once guard of the authentication check */
    var onceDone: bool

    function Creds(): Credentials
      reads this
    {
      Credentials(id, username, accessToken, refreshToken)
    }

    function State(): Session
      reads this
    {
      Session(Creds(), authed, onceDone)
    }

    predicate Valid()
      reads this
    {
      State().Valid()
    }

    constructor (id: string, username: string, accessToken: string, refreshToken: string)
      ensures Valid()
      ensures State() == Session(Credentials(id, username, accessToken, refreshToken), false, false)
    {
      this.id := id;
      this.username := username;
      this.accessToken := accessToken;
      this.refreshToken := refreshToken;
      authed := false;
      onceDone := false;
    }

    /** Password grant: on success the credentials become the username and
        the returned token pair, and the updated options are returned. */
    method Authenticate(username: string, password: string, reply: Reply<TokenPayload>)
      returns (sent: Request, result: Result<Credentials>)
      requires Valid()
      modifies this
      ensures Valid()
      ensures sent == PasswordGrant(old(Creds()), username, password)
      ensures Creds() == AfterLogin(old(Creds()), username, reply)
      ensures result == (if Grant(reply).Ok? then Ok(Creds()) else Err(Grant(reply).error))
      ensures authed == old(authed) && onceDone == old(onceDone)
    {
      sent := PasswordGrant(Creds(), username, password);
      if reply.TransportFailure? {
        return sent, Err(reply.err);
      }
      if reply.status == 401 {
        return sent, Err(Text(AuthFailedMessage));
      }
      if reply.body.Malformed? {
        return sent, Err(reply.body.err);
      }
      var payload := reply.body.value;
      if payload.error != "" {
        return sent, Err(Text("authentication request failed: " + Text.Quote(payload.errorDescription)));
      }
      this.username := username;
      accessToken := payload.accessToken;
      refreshToken := payload.refreshToken;
      result := Ok(Creds());
    }

    /** Refresh grant with the stored refresh token: on success both tokens
        are replaced; the username is never touched. */
    method AuthenticateWithRefreshToken(reply: Reply<TokenPayload>) returns (sent: Request, err: Option<Error>)
      requires Valid()
      modifies this
      ensures Valid()
      ensures sent == RefreshGrant(old(Creds()))
      ensures Creds() == AfterRefresh(old(Creds()), reply)
      ensures err == (if Grant(reply).Ok? then None else Some(Grant(reply).error))
      ensures authed == old(authed) && onceDone == old(onceDone)
    {
      sent := RefreshGrant(Creds());
      if reply.TransportFailure? {
        return sent, Some(reply.err);
      }
      if reply.status == 401 {
        return sent, Some(Text(AuthFailedMessage));
      }
      if reply.body.Malformed? {
        return sent, Some(reply.body.err);
      }
      var payload := reply.body.value;
      if payload.error != "" {
        return sent, Some(Text("authentication request failed: " + Text.Quote(payload.errorDescription)));
      }
      accessToken := payload.accessToken;
      refreshToken := payload.refreshToken;
      err := None;
    }

    /** Revocation of the refresh token: a 200 logs the client out. */
    method RevokeAccess(reply: Reply<()>) returns (sent: Request, result: Result<Credentials>)
      requires Valid()
      modifies this
      ensures Valid()
      ensures sent == Revocation(old(Creds()))
      ensures result == Revoke(old(Creds()), reply)
      ensures Creds() == AfterRevoke(old(Creds()), reply)
      ensures authed == old(authed) && onceDone == old(onceDone)
    {
      sent := Revocation(Creds());
      if reply.TransportFailure? {
        return sent, Err(reply.err);
      }
      if reply.status != 200 {
        return sent, Err(Text("unable to log out (" + reply.statusText + ")"));
      }
      username := "";
      accessToken := "";
      refreshToken := "";
      result := Ok(Creds());
    }

    /** The authentication check, run at most once per client. */
    method EnsureAuthed(probe: Reply<()>, refresh: Reply<TokenPayload>)
      returns (ok: bool, err: Option<Error>, sent: seq<Request>)
      requires Valid()
      modifies this
      ensures Valid()
      ensures Checked(State(), ok, err, sent) == Check(old(State()), probe, refresh)
    {
      err, sent := None, [];
      if !onceDone {
        onceDone := true;
        if accessToken == "" {
          err := Some(Text(MissingTokenMessage));
        } else {
          sent := [Probe(Creds())];
          match probe
          case TransportFailure(e) =>
            err := Some(e);
          case Replied(status, statusText, _) =>
            if status == 200 {
              authed := true;
            } else if status == 401 {
              var refreshSent;
              refreshSent, err := AuthenticateWithRefreshToken(refresh);
              sent := sent + [refreshSent];
              if err == None {
                authed := true;
              }
            } else {
              err := Some(Text("auth: unhandled status code returned (" + statusText + ")"));
            }
        }
      }
      ok := authed;
    }
  }
}
