/**
  The door of a WebSocket server: what it does with the Authorization header of a request, and
  what follows for users from the way headers are read.
*/
module Admission {
  import opened Basics
  import opened Text
  import opened Headers
  import opened Protocol
  import opened Digest
  import opened Authentication
  import N = Nonces

  datatype Outcome =
    | Unchecked                                    // the server asks for no authentication
    | Unauthorized(challenge: string)              // 401 with a challenge
    | ServerError                                  // 500: no challenge could be made
    | Offered(credentials: Credentials, alive: bool) // handed to the handler, which validates it

  const AUTHORIZATION := "authorization"

  function BasicChallenge(realm: string): string {
    "Basic realm=\"" + realm + "\""
  }

  /** The handshake of WSServerImpl, as far as authentication goes. */
  class WSServerImpl {
    const authType: AuthType
    const realm: string
    const nonces: N.NoncePool

    constructor (authType: AuthType, realm: string)
      ensures this.authType == authType && this.realm == realm && fresh(nonces) && nonces.Snapshot() == N.EMPTY
    {
      this.authType, this.realm := authType, realm;
      nonces := new N.NoncePool();
    }

    method OnAccept(unbase64: Hash, headers: seq<HttpHeader>, leftOver: bool, draws: seq<string>, timerStarts: bool)
      returns (outcome: Outcome)
      requires forall h :: h in headers ==> |h.val| < NPOS
      requires authType == BASIC || authType == DIGEST || authType == UNUSED
      requires exists d :: d in draws && d !in nonces.pool
      modifies nonces
      ensures exists draw :: draw in draws && draw !in old(nonces.pool)
                && (outcome, nonces.Snapshot())
                   == Door(authType, realm, unbase64, Named(headers, AUTHORIZATION), draw, timerStarts, leftOver,
                           old(nonces.Snapshot()))
      ensures outcome.Unchecked? <==> authType == UNUSED
      ensures Unnamed(headers, AUTHORIZATION) ==> !outcome.Offered?
      ensures forall i: nat :: FirstNamed(headers, AUTHORIZATION, i) ==>
                (outcome.Offered? <==>
                   authType != UNUSED && ReadAuthorization(unbase64, headers[i].val).kind == authType)
      ensures outcome.Offered? && authType == DIGEST ==>
                (outcome.alive <==> outcome.credentials.nonce in old(nonces.pool))
      ensures outcome.ServerError? ==> authType == DIGEST && !timerStarts
    {
      LowerStays(AUTHORIZATION);
      FindsFirst(headers, AUTHORIZATION);
      hide Named, FirstNamed, Unnamed, Lower;
      ghost var unused :| unused in draws && unused !in nonces.pool;
      if authType == UNUSED {
        return Unchecked;
      }
      var header := FindHeader(headers, AUTHORIZATION);
      if header.None? {
        outcome := CreateAuthenticationHeader(draws, timerStarts);
        return;
      }
      var impl := new AuthorizationContextImpl(unbase64, header.value, leftOver);
      if authType != impl.kind {
        outcome := CreateAuthenticationHeader(draws, timerStarts);
        return;
      }
      var alive := leftOver;
      if authType == DIGEST {
        alive := nonces.IsValid(impl.nonce);
        nonces.Remove(impl.nonce);
      }
      return Offered(impl.Parsed(), alive);
    }

    method CreateAuthenticationHeader(draws: seq<string>, timerStarts: bool) returns (outcome: Outcome)
      requires authType == BASIC || authType == DIGEST
      requires exists d :: d in draws && d !in nonces.pool
      modifies nonces
      ensures exists draw :: draw in draws && draw !in old(nonces.pool)
                && (outcome, nonces.Snapshot()) == Refusal(authType, realm, draw, timerStarts, old(nonces.Snapshot()))
      ensures outcome.ServerError? <==> authType == DIGEST && !timerStarts
      ensures !outcome.ServerError? ==> outcome.Unauthorized?
    {
      ghost var unused :| unused in draws && unused !in nonces.pool;
      if authType == BASIC {
        var v := "Basic realm=\"";
        v := v + realm;
        v := v + "\"";
        return Unauthorized(v);
      }
      var r, nonce := nonces.IssueNew(draws, timerStarts);
      if r != N.Ok {
        return ServerError;
      }
      var v := PrintChallenge(realm, nonce);
      return Unauthorized(v);
    }
  }

  /** 401 with a challenge, for which a new nonce is drawn and issued. */
  function Refusal(authType: AuthType, realm: string, draw: string, timerStarts: bool, s: N.Nonces)
    : (Outcome, N.Nonces)
  {
    if authType == BASIC then (Unauthorized(BasicChallenge(realm)), s)
    else (if timerStarts then Unauthorized("Digest" + Line(ChallengeFields(realm, draw))) else ServerError,
          N.DoAdd(s, draw))
  }

  /** What the server makes of an Authorization header, and what becomes of its nonces. */
  function Door(authType: AuthType, realm: string, unbase64: Hash, header: Option<string>, draw: string,
                timerStarts: bool, leftOver: bool, s: N.Nonces): (Outcome, N.Nonces) {
    if authType == UNUSED then (Unchecked, s)
    else if header.None? || ReadAuthorization(unbase64, header.value).kind != authType then
      Refusal(authType, realm, draw, timerStarts, s)
    else
      var c := ReadAuthorization(unbase64, header.value);
      if authType == DIGEST then (Offered(c, c.nonce in s.pool), N.DoRemove(N.DoCheck(s, c.nonce), c.nonce))
      else (Offered(c, leftOver), s)
  }

  /** A client reads the realm of a basic challenge, unless a comma or an equals sign is in it. */
  lemma BasicChallengeRead(realm: string)
    requires ',' !in realm
    ensures ReadChallenge(BasicChallenge(realm)) == Challenge(BASIC, Sent(realm), "", "", "")
  {
    var fields := [Quoted("realm", realm)];
    BasicIsLine(realm);
    RealmShipped(realm);
    LowerBasic();
    hide Line, Parse, Lower, Shipped, BasicChallenge, Sole, Get, Quoted;
    ShippedRead("Basic", fields);
    QuotedSent(fields, "realm", realm);
  }

  lemma LowerBasic()
    ensures Lower("Basic") == "basic" && ' ' !in "Basic"
  {
  }

  lemma RealmShipped(realm: string)
    requires ',' !in realm
    ensures var fields := [Quoted("realm", realm)];
            Sole(fields, Quoted("realm", realm)) && forall f :: f in fields ==> Shipped(f)
  {
    KeyNames();
    hide Lower, LowerChar, PlainKey;
  }

  lemma BasicIsLine(realm: string)
    ensures BasicChallenge(realm) == "Basic" + Line([Quoted("realm", realm)])
  {
    assert "Basic realm=\"" == "Basic" + (" " + "realm" + "=" + "\"");
    QuotedText(" " + "realm" + "=", realm);
  }

  // ---- A header is good once ----

  /** What presenting a nonce does to the pool. */
  function Present(s: N.Nonces, nonce: string): N.Nonces {
    N.Step(N.Step(s, N.Check(nonce)), N.Consume)
  }

  lemma PresentTakes(s: N.Nonces, nonce: string)
    requires N.Distinct(s.pool) && s.presented.None?
    ensures nonce !in Present(s, nonce).pool && N.Distinct(Present(s, nonce).pool) && Present(s, nonce).presented.None?
  {
    var t := N.Step(s, N.Check(nonce));
    assert t == N.DoCheck(s, nonce);
    N.FindMissing(t.pool, nonce);
    if nonce in t.pool {
      N.RemovedFrom(t.pool, nonce, nonce);
    }
  }

  ghost predicate NotIssuedAgain(run: seq<N.Action>, nonce: string) {
    forall a :: a in run && a.Issue? ==> a.nonce != nonce
  }

  lemma StaysOut(s: N.Nonces, a: N.Action, nonce: string)
    requires nonce !in s.pool && (a.Issue? ==> a.nonce != nonce)
    ensures nonce !in N.Step(s, a).pool
  {
  }

  lemma {:induction false} StaysOutOfRun(s: N.Nonces, run: seq<N.Action>, nonce: string)
    requires nonce !in s.pool && NotIssuedAgain(run, nonce)
    ensures nonce !in N.Run(s, run).pool
    decreases |run|
  {
    if run != [] {
      assert run[0] in run;
      StaysOut(s, run[0], nonce);
      StaysOutOfRun(N.Step(s, run[0]), run[1..], nonce);
    }
  }

  /**
    The answer to a challenge is VALID for the right password while its nonce stands; presented
    again, whatever happened in between, it is AMBIGUOUS, unless the same nonce was issued again.
  */
  lemma AnswerIsGoodOnce(md5: Hash, base64: Hash, unbase64: Hash, realm: string, nonce: string, nc: nat, uri: string,
                         username: string, password: string, cnonce: string, s: N.Nonces, run: seq<N.Action>)
    requires Worded(md5) && Token(nonce) && Token(cnonce) && nc <= 0xfffe
    requires username != "" && uri != "" && Clean(username) && Clean(realm) && Clean(uri)
    requires N.Distinct(s.pool) && s.presented.None? && nonce in s.pool && NotIssuedAgain(run, nonce)
    ensures var v := Header(md5, base64, realm, nonce, nc, uri, username, password, cnonce);
            var c := ReadAuthorization(unbase64, v);
            var later := N.Run(Present(s, c.nonce), run);
            && Judge(md5, c, c.nonce in s.pool, password) == VALID
            && Judge(md5, c, c.nonce in later.pool, password) == AMBIGUOUS
  {
    PresentTakes(s, nonce);
    StaysOutOfRun(Present(s, nonce), run, nonce);
    hide Present, Worded;
    ChallengeToVerdict(md5, base64, unbase64, realm, nonce, nc, uri, username, password, cnonce, true, password);
    ChallengeToVerdict(md5, base64, unbase64, realm, nonce, nc, uri, username, password, cnonce, false, password);
  }

  // ---- What is never authorised ----

  /** The request target WSSocketImpl::Connect builds, and answers the challenge for. */
  function Url(path: string, query: string): string {
    var url := if path != "" && path[0] == '/' then path else "/" + path;
    if query == "" then url
    else if query[0] == '?' then url + query
    else url + "?" + query
  }

  /** The target starts with a slash, and its path and its query can be told apart. */
  lemma UrlParts(path: string, query: string)
    requires '?' !in path
    ensures var url := Url(path, query);
            && url != "" && url[0] == '/' && (path <= url || "/" + path <= url)
            && ('?' in url <==> query != "")
            && (query != "" ==> url[First(url, '?') + 1..] == if query[0] == '?' then query[1..] else query)
  {
    var start := if path != "" && path[0] == '/' then path else "/" + path;
    if query == "" {
      assert Url(path, query) == start;
    } else {
      var rest := if query[0] == '?' then query[1..] else query;
      assert Url(path, query) == start + ['?'] + rest;
      hide Url;
      QueryAfter(start, rest);
    }
  }

  lemma QueryAfter(start: string, rest: string)
    requires '?' !in start
    ensures var url := start + ['?'] + rest;
            '?' in url && First(url, '?') == |start| && url[First(url, '?') + 1..] == rest
  {
    var url := start + ['?'] + rest;
    FirstAfter(start, '?', rest);
    assert url[|start|] == '?';
  }

  /**
    A user or a uri with an equals sign in it, such as the uri of any query string of the form key=value, is not
    read back, and the answer is INVALID whatever the password and the nonce.
  */
  lemma EqualsSignNeverAuthorised(md5: Hash, base64: Hash, unbase64: Hash, realm: string, nonce: string, nc: nat,
                                  uri: string, username: string, password: string, cnonce: string, alive: bool,
                                  other: string)
    requires Worded(md5) && Token(nonce) && Token(cnonce) && nc <= 0xfffe && username != ""
    requires ',' !in username && ',' !in realm && ',' !in uri && uri != "" && ('=' in username || '=' in uri)
    ensures var v := Header(md5, base64, realm, nonce, nc, uri, username, password, cnonce);
            Judge(md5, ReadAuthorization(unbase64, v), alive, other) == INVALID
  {
    hide *;
    RightPasswordExactly(md5, base64, unbase64, realm, nonce, nc, uri, username, password, cnonce, alive);
  }

  /** A client that connects with a key=value query is never authorised by digest. */
  lemma QueryNeverAuthorised(md5: Hash, base64: Hash, unbase64: Hash, realm: string, nonce: string, nc: nat,
                             path: string,
                             query: string, username: string, password: string, cnonce: string, alive: bool)
    requires Worded(md5) && Token(nonce) && Token(cnonce) && nc <= 0xfffe && username != ""
    requires ',' !in username && ',' !in realm && '=' in query && ',' !in path && ',' !in query
    ensures Judge(md5, ReadAuthorization(unbase64, Header(md5, base64, realm, nonce, nc, Url(path, query), username,
                                                          password, cnonce)),
                  alive, password) == INVALID
  {
    var uri := Url(path, query);
    assert query != "";
    assert '=' in uri && ',' !in uri by {
      assert ',' !in "/" + path && ',' !in path + query;
    }
    EqualsSignNeverAuthorised(md5, base64, unbase64, realm, nonce, nc, uri, username, password, cnonce, alive,
        password);
  }

  // ---- Basic ----

  /** Basic credentials arrive as they were if and only if no colon is in them and the password is not empty. */
  lemma BasicArrives(md5: Hash, base64: Hash, unbase64: Hash, ch: Challenge, uri: string, username: string,
                     password: string)
    requires ch.kind == BASIC && username != "" && unbase64(base64(username + ":" + password))
             == username + ":" + password
    ensures var c := ReadAuthorization(unbase64, Authorization(md5, base64, ch, 0, uri, username, password, ""));
            && c.kind == BASIC
            && ((c.username == username && c.response == password)
                <==> (':' !in username && ':' !in password && password != ""))
  {
    var text := username + ":" + password;
    BasicRead(md5, base64, unbase64, ch, uri, username, password);
    PiecesHaveNoSeparator(text, ':');
    hide Authorization, ReadAuthorization;
    if ':' !in username && ':' !in password && password != "" {
      SplitJoin([username, password], ':');
      assert [username, password][1..] == [password];
      assert Join([username, password], ':') == text;
    } else if password == "" && ':' !in username {
      SplitHead(username, ':', "");
      assert text == username + [':'] + "";
    } else if |Split(text, ':')| == 2 {
      var parts := Split(text, ':');
      assert parts[0] in parts && parts[1] in parts;
    }
  }

  lemma BasicRead(md5: Hash, base64: Hash, unbase64: Hash, ch: Challenge, uri: string, username: string,
                  password: string)
    requires ch.kind == BASIC && username != ""
    requires unbase64(base64(username + ":" + password)) == username + ":" + password
    ensures ReadAuthorization(unbase64, Authorization(md5, base64, ch, 0, uri, username, password, ""))
            == ReadBasic(username + ":" + password)
  {
    var text := username + ":" + password;
    var v := "Basic " + base64(text);
    assert v == "Basic" + [' '] + base64(text);
    FirstAfter("Basic", ' ', base64(text));
    assert v[..5] == "Basic" && v[6..] == base64(text);
    assert Lower("Basic") == "basic";
    hide ReadBasic;
  }

  /** With a colon too many the text is no pair, or its second part is not the password. */
  lemma PasswordNotRead(username: string, password: string)
    requires password != "" && (':' in username || ':' in password)
    ensures ReadBasic(username + ":" + password).response != password
  {
    var text := username + ":" + password;
    PiecesHaveNoSeparator(text, ':');
    if ':' in password {
      var parts := Split(text, ':');
      assert |parts| == 2 ==> parts[1] in parts;
    } else {
      PieceCount(text, ':');
      OccurrencesConcat(username + ":", password, ':');
      OccurrencesConcat(username, ":", ':');
      OccursIn(username, ':');
      assert Occurrences(":", ':') == 1;
    }
  }

  /**
    From the header a client with basic credentials sends to the verdict, for a password that is not empty:
    if neither part holds a colon, that password is VALID and every other INVALID; if one does, even that
    password is INVALID.
  */
  lemma BasicVerdict(md5: Hash, base64: Hash, unbase64: Hash, ch: Challenge, uri: string, username: string,
                     password: string, alive: bool, other: string)
    requires ch.kind == BASIC && username != "" && password != ""
    requires unbase64(base64(username + ":" + password)) == username + ":" + password
    ensures var c := ReadAuthorization(unbase64, Authorization(md5, base64, ch, 0, uri, username, password, ""));
            && (':' !in username && ':' !in password ==>
                  Judge(md5, c, alive, other) == if other == password then VALID else INVALID)
            && (':' in username || ':' in password ==> Judge(md5, c, alive, password) == INVALID)
  {
    BasicRead(md5, base64, unbase64, ch, uri, username, password);
    hide Authorization, ReadAuthorization;
    if ':' !in username && ':' !in password {
      BasicArrives(md5, base64, unbase64, ch, uri, username, password);
    } else {
      PasswordNotRead(username, password);
    }
  }

  /**
    What is not read: basic credentials that are no pair are VALID for the empty password only, a header of
    another scheme is INVALID for every password.
  */
  lemma UnreadVerdict(md5: Hash, unbase64: Hash, v: string, alive: bool, password: string)
    requires ' ' in v
    ensures var c := ReadAuthorization(unbase64, v);
            var scheme := Lower(v[..First(v, ' ')]);
            && (scheme == "basic" && |Split(unbase64(v[First(v, ' ') + 1..]), ':')| != 2 ==>
                  Judge(md5, c, alive, password) == if password == "" then VALID else INVALID)
            && (scheme != "basic" && scheme != "digest" ==> Judge(md5, c, alive, password) == INVALID)
  {
    hide Lower, Parse, Split;
  }
}
