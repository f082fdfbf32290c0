/**
  The WebSocket client through a digest login: the header it sends with a handshake, what it learns
  from the reply, and the whole exchange with a server, from the first refusal to the next reconnect.
*/
module Login {
  import opened Basics
  import opened Text
  import opened Headers
  import opened Protocol
  import opened Digest
  import opened Authentication
  import opened Admission
  import N = Nonces

  /** What a client is configured with. */
  datatype Account = Account(authType: AuthType, username: string, password: string, url: string)

  /** The Authorization header kept in the request context, the last challenge, and the nonce count. */
  datatype Client = Client(authorization: Option<string>, challenge: Challenge, nc: nat)

  const BLANK := Challenge(UNUSED, "", "", "", "")
  const NEW_CLIENT := Client(None, BLANK, 0)

  /** WSSocketImpl::Connect: a header that cannot be made leaves the one of an earlier connect in place. */
  function Dialled(md5: Hash, base64: Hash, account: Account, cnonce: string, c: Client): Client {
    var ch := c.challenge.(kind := account.authType);
    if account.authType == BASIC || account.authType == DIGEST then
      var text := Authorization(md5, base64, ch, c.nc, account.url, account.username, account.password, cnonce);
      Client(if text != "" then Some(text) else c.authorization, ch, c.nc)
    else Client(None, ch, c.nc)
  }

  /** WSSocketImpl::OnConnect, given the WWW-Authenticate header of the reply. */
  function Replied(challenge: Option<string>, c: Client): Client {
    match challenge
    case Some(v) => Client(c.authorization, ReadChallenge(v), NextCount(c.nc))
    case None => Client(c.authorization, BLANK, 0)
  }

  const CHALLENGED := "www-authenticate"

  lemma ChallengedName()
    ensures Lower(CHALLENGED) == CHALLENGED
  {
    LowerStays(CHALLENGED);
  }

  /** The later of two headers with one name replaces the earlier. */
  function Collected(kept: map<string, string>, headers: seq<HttpHeader>): map<string, string>
    decreases |headers|
  {
    if headers == [] then kept else Collected(kept[headers[0].key := headers[0].val], headers[1..])
  }

  lemma {:induction false} CollectedKeeps(kept: map<string, string>, headers: seq<HttpHeader>, key: string)
    requires forall h :: h in headers ==> h.key != key
    ensures key in Collected(kept, headers) <==> key in kept
    ensures key in kept ==> Collected(kept, headers)[key] == kept[key]
    decreases |headers|
  {
    if headers != [] {
      assert headers[0] in headers;
      CollectedKeeps(kept[headers[0].key := headers[0].val], headers[1..], key);
    }
  }

  /** A collected header has the value it came with last. */
  lemma {:induction false} CollectedLast(kept: map<string, string>, headers: seq<HttpHeader>, i: nat)
    requires i < |headers| && forall h :: h in headers[i + 1..] ==> h.key != headers[i].key
    ensures headers[i].key in Collected(kept, headers)
    ensures Collected(kept, headers)[headers[i].key] == headers[i].val
    decreases |headers|
  {
    var next := kept[headers[0].key := headers[0].val];
    if i == 0 {
      CollectedKeeps(next, headers[1..], headers[0].key);
    } else {
      assert headers[1..][i - 1 + 1..] == headers[i + 1..];
      CollectedLast(next, headers[1..], i - 1);
    }
  }

  class WSSocketImpl {
    const account: Account
    const path: string
    const query: string
    var requestHeaders: map<string, string>
    var responseHeaders: map<string, string>
    var code: int
    var kind: AuthType
    var realm: string
    var nonce: string
    var algorithm: string
    var qop: string
    var nc: nat

    function Snapshot(): Client
      reads this
    {
      Client(if "Authorization" in requestHeaders then Some(requestHeaders["Authorization"]) else None,
             Challenge(kind, realm, nonce, algorithm, qop), nc)
    }

    constructor (authType: AuthType, username: string, password: string, path: string, query: string)
      ensures Snapshot() == NEW_CLIENT && account == Account(authType, username, password, Url(path, query))
    {
      account := Account(authType, username, password, Url(path, query));
      this.path, this.query := path, query;
      requestHeaders, responseHeaders, code := map[], map[], 101;
      kind, realm, nonce, algorithm, qop, nc := UNUSED, "", "", "", "", 0;
    }

    /** The headers of the handshake request are the returned ones. */
    method Connect(md5: Hash, base64: Hash, cnonce: string) returns (sent: map<string, string>)
      modifies this
      ensures Snapshot() == Dialled(md5, base64, account, cnonce, old(Snapshot()))
      ensures sent == requestHeaders && responseHeaders == map[]
      ensures forall key :: key != "Authorization" ==>
                (key in sent <==> key in old(requestHeaders)) && (key in sent ==> sent[key] == old(requestHeaders)[key])
    {
      kind := account.authType;
      if kind == BASIC || kind == DIGEST {
        var ch := Challenge(kind, realm, nonce, algorithm, qop);
        var text := Authorization(md5, base64, ch, nc, account.url, account.username, account.password, cnonce);
        if text != "" {
          requestHeaders := requestHeaders["Authorization" := text];
        }
      } else {
        requestHeaders := requestHeaders - {"Authorization"};
      }
      responseHeaders := map[];
      sent := requestHeaders;
    }

    /** The reply of the handshake, success or not. */
    method OnConnect(code: int, headers: seq<HttpHeader>)
      requires forall h :: h in headers ==> |h.val| < NPOS
      modifies this
      ensures this.code == code && responseHeaders == Collected(old(responseHeaders), headers)
      ensures requestHeaders == old(requestHeaders)
      ensures Snapshot() == Replied(Named(headers, CHALLENGED), old(Snapshot()))
      ensures forall i: nat :: FirstNamed(headers, CHALLENGED, i) ==>
                && Challenge(kind, realm, nonce, algorithm, qop) == ReadChallenge(headers[i].val)
                && nc == if old(nc) > 0xfffd then 1 else old(nc) + 1
      ensures Unnamed(headers, CHALLENGED) ==>
                Challenge(kind, realm, nonce, algorithm, qop) == Challenge(UNUSED, "", "", "", "") && nc == 0
    {
      ChallengedName();
      FindsFirst(headers, CHALLENGED);
      hide FirstNamed, Unnamed, Named, Collected, ReadChallenge;
      this.code := code;
      ReadHeaders(headers);
      var challenge := FindHeader(headers, CHALLENGED);
      TakeChallenge(challenge);
    }

    method TakeChallenge(challenge: Option<string>)
      requires challenge.Some? ==> |challenge.value| < NPOS
      modifies this`kind, this`realm, this`nonce, this`algorithm, this`qop, this`nc
      ensures Snapshot() == Replied(challenge, old(Snapshot()))
    {
      if challenge.Some? {
        var count := if nc > NC_LIMIT then 0 else nc;
        var context := new AuthenticateContextImpl(challenge.value);
        kind, realm, nonce := context.kind, context.realm, context.nonce;
        algorithm, qop := context.algorithm, context.qop;
        nc := count + 1;
      } else {
        kind, realm, nonce, algorithm, qop, nc := UNUSED, "", "", "", "", 0;
      }
    }

    method ReadHeaders(headers: seq<HttpHeader>)
      modifies this`responseHeaders
      ensures responseHeaders == Collected(old(responseHeaders), headers)
    {
      var i := 0;
      while i < |headers|
        invariant i <= |headers|
        invariant Collected(responseHeaders, headers[i..]) == Collected(old(responseHeaders), headers)
      {
        assert headers[i..][1..] == headers[i + 1..];
        responseHeaders := responseHeaders[headers[i].key := headers[i].val];
        i := i + 1;
      }
    }
  }

  // ---- What the engine keeps of it ----

  /** The part of the client that decides on the automatic reconnect. */
  function Context(code: int, c: Client): WsContext {
    WsContext(code, c.challenge.kind, c.nc)
  }

  function ReplyOfHeader(code: int, challenge: Option<string>): Reply {
    Reply(code, if challenge.Some? then Some(ReadChallenge(challenge.value).kind) else None)
  }

  /** A handshake reply changes the context of the engine as it changes the client. */
  lemma ReplyFollows(s: Socket, code: int, before: int, challenge: Option<string>, c: Client)
    requires s.kind.WS? && s.ws == Context(before, c)
    ensures TakeReply(s, ReplyOfHeader(code, challenge)).ws == Context(code, Replied(challenge, c))
  {
    hide ReadChallenge;
  }

  /** So does a Connect that succeeds. */
  lemma DialFollows(s: Socket, timeout: nat, dial: Dial, byUser: bool, md5: Hash, base64: Hash, account: Account,
                    cnonce: string, code: int, c: Client)
    requires s.kind.WS? && s.authConfig == account.authType && s.ws == Context(code, c)
    requires s.connectable && s.state == DISCONNECTED && dial.room && dial.status == OK
    ensures DoConnect(s, timeout, dial, byUser).ws == Context(code, Dialled(md5, base64, account, cnonce, c))
  {
    hide Dialled;
    DialledContext(md5, base64, account, cnonce, code, c);
  }

  lemma DialledContext(md5: Hash, base64: Hash, account: Account, cnonce: string, code: int, c: Client)
    ensures Context(code, Dialled(md5, base64, account, cnonce, c)) == Context(code, c).(auth := account.authType)
  {
    hide Authorization;
  }

  // ---- A login ----

  /** The exchange: an answer to the header the client sends, and the reply it gets back. */
  function Exchange(realm: string, unbase64: Hash, draw: string, c: Client, s: N.Nonces): (Outcome, N.Nonces) {
    Door(DIGEST, realm, unbase64, c.authorization, draw, true, false, s)
  }

  function ChallengeOf(o: Outcome): Option<string> {
    match o
    case Unauthorized(challenge) => Some(challenge)
    case _ => None
  }

  /** The other headers of a reply, before the challenge and after it. */
  datatype Others = Others(before: seq<HttpHeader>, after: seq<HttpHeader>)

  predicate NoChallenge(others: Others) {
    Unnamed(others.before, CHALLENGED) && Unnamed(others.after, CHALLENGED)
  }

  /** The reply of the server, with the name of the header as it writes it. */
  function ReplyHeaders(o: Outcome, others: Others): seq<HttpHeader> {
    match o
    case Unauthorized(challenge) => others.before + [HttpHeader("WWW-Authenticate", challenge)] + others.after
    case _ => others.before + others.after
  }

  /** What the client makes of it. */
  function Heard(o: Outcome, others: Others, c: Client): Client {
    Replied(Named(ReplyHeaders(o, others), CHALLENGED), c)
  }

  lemma WrittenName()
    ensures Lower("WWW-Authenticate") == CHALLENGED
  {
  }

  lemma HeardChallenge(o: Outcome, others: Others, c: Client)
    requires NoChallenge(others)
    ensures Heard(o, others, c) == Replied(ChallengeOf(o), c)
  {
    var headers := ReplyHeaders(o, others);
    ChallengedName();
    if o.Unauthorized? {
      WrittenName();
      hide Lower;
      assert headers[..|others.before|] == others.before;
      NamedFirst(headers, CHALLENGED, |others.before|);
    } else {
      hide Lower;
      NamedNone(headers, CHALLENGED);
    }
  }

  /** The request of the client, with its Authorization header among others. */
  function RequestHeaders(c: Client, others: Others): seq<HttpHeader> {
    others.before + (if c.authorization.Some? then [HttpHeader("Authorization", c.authorization.value)] else [])
    + others.after
  }

  /** The server finds that header, or none, as Exchange has it. */
  lemma AuthorizationFound(c: Client, others: Others)
    requires Unnamed(others.before, AUTHORIZATION) && Unnamed(others.after, AUTHORIZATION)
    ensures Named(RequestHeaders(c, others), AUTHORIZATION) == c.authorization
  {
    var headers := RequestHeaders(c, others);
    AuthorizationName();
    LowerStays(AUTHORIZATION);
    hide Lower;
    if c.authorization.Some? {
      assert headers[..|others.before|] == others.before;
      NamedFirst(headers, AUTHORIZATION, |others.before|);
    } else {
      NamedNone(headers, AUTHORIZATION);
    }
  }

  lemma AuthorizationName()
    ensures Lower("Authorization") == AUTHORIZATION
  {
  }

  predicate Usable(account: Account) {
    account.authType == DIGEST && account.username != "" && account.url != "" && Clean(account.username)
        && Clean(account.url)
  }

  /** A client without a challenge has nothing to answer: it sends no header, and is challenged. */
  lemma FirstRefusal(md5: Hash, base64: Hash, unbase64: Hash, account: Account, realm: string, cnonce: string,
                     draw: string,
                     s: N.Nonces)
    requires Usable(account)
    ensures var c := Dialled(md5, base64, account, cnonce, NEW_CLIENT);
            && c.authorization == None
            && Exchange(realm, unbase64, draw, c, s) == (Unauthorized(ChallengeText(realm, draw)), N.DoAdd(s, draw))
  {
    hide Line, ChallengeFields;
  }

  /** The header a client of that account answers the challenge of that nonce with. */
  function Answer(md5: Hash, base64: Hash, account: Account, realm: string, nonce: string, nc: nat, cnonce: string)
    : string
  {
    Header(md5, base64, realm, nonce, nc, account.url, account.username, account.password, cnonce)
  }

  lemma TextIsSent(md5: Hash, base64: Hash, account: Account, cnonce: string, c: Client, text: string)
    requires account.authType == DIGEST && c.challenge.kind == DIGEST && text != ""
    requires text == Authorization(md5, base64, c.challenge, c.nc, account.url, account.username, account.password,
             cnonce)
    ensures Dialled(md5, base64, account, cnonce, c).authorization == Some(text)
  {
    hide Authorization;
    assert c.challenge.(kind := DIGEST) == c.challenge;
  }

  lemma AnswerNotEmpty(md5: Hash, base64: Hash, account: Account, realm: string, nonce: string, nc: nat, cnonce: string)
    requires Usable(account) && Clean(realm) && Token(nonce)
    ensures Answer(md5, base64, account, realm, nonce, nc, cnonce) != ""
  {
    CleanSent(realm);
    HeaderIs(md5, base64, realm, nonce, nc, account.url, account.username, account.password, cnonce);
    hide Line, Header, AnswerFields, ResponseText, NcText;
  }

  function ChallengeText(realm: string, nonce: string): string {
    "Digest" + Line(ChallengeFields(realm, nonce))
  }

  lemma Challenged(c: Client, realm: string, nonce: string)
    ensures var r := Replied(Some(ChallengeText(realm, nonce)), c);
            r.nc == NextCount(c.nc) && r.challenge == ReadChallenge(ChallengeText(realm, nonce))
                && r.challenge.kind == DIGEST
  {
    ChallengeKind(realm, nonce);
    hide Line, ChallengeFields, ReadChallenge;
  }

  lemma AnswerIs(md5: Hash, base64: Hash, account: Account, realm: string, nonce: string, nc: nat, cnonce: string)
    ensures Answer(md5, base64, account, realm, nonce, nc, cnonce)
            == Authorization(md5, base64, ReadChallenge(ChallengeText(realm, nonce)), nc, account.url, account.username,
                             account.password, cnonce)
  {
    hide Line, ChallengeFields, ReadChallenge, Authorization;
  }

  lemma AnswerIsSent(md5: Hash, base64: Hash, account: Account, realm: string, nonce: string, nc: nat, cnonce: string,
                     c: Client)
    requires Usable(account) && Clean(realm) && Token(nonce) && nc == NextCount(c.nc)
    ensures Dialled(md5, base64, account, cnonce, Replied(Some(ChallengeText(realm, nonce)), c)).authorization
            == Some(Answer(md5, base64, account, realm, nonce, nc, cnonce))
  {
    assert account.authType == DIGEST;
    hide *;
    var text := Answer(md5, base64, account, realm, nonce, nc, cnonce);
    AnswerNotEmpty(md5, base64, account, realm, nonce, nc, cnonce);
    var r := Replied(Some(ChallengeText(realm, nonce)), c);
    Challenged(c, realm, nonce);
    AnswerIs(md5, base64, account, realm, nonce, nc, cnonce);
    TextIsSent(md5, base64, account, cnonce, r, text);
  }

  /** An answer is let in, VALID while its nonce stands and AMBIGUOUS after, and the nonce is gone. */
  lemma AnswerVerdict(md5: Hash, base64: Hash, unbase64: Hash, account: Account, realm: string, nonce: string,
                      nc: nat, cnonce: string, s: N.Nonces)
    requires Worded(md5) && Usable(account) && Clean(realm) && Token(nonce) && Token(cnonce)
    requires N.Distinct(s.pool) && nc <= 0xfffe
    ensures var d := Door(DIGEST, realm, unbase64, Some(Answer(md5, base64, account, realm, nonce, nc, cnonce)), "",
            true,
                          false, s);
            && d.0.Offered? && nonce !in d.1.pool
            && ReadHex(d.0.credentials.nc) == nc
            && Judge(md5, d.0.credentials, d.0.alive, account.password)
               == (if nonce in s.pool then VALID else AMBIGUOUS)
  {
    ChallengeToVerdict(md5, base64, unbase64, realm, nonce, nc, account.url, account.username, account.password, cnonce,
                       nonce in s.pool, account.password);
    hide Worded, Header, ReadAuthorization, Judge, NcText, ReadHex, RequestDigest, HA1;
    CheckedAndRemoved(s, nonce);
  }

  lemma CheckedAndRemoved(s: N.Nonces, nonce: string)
    requires N.Distinct(s.pool)
    ensures nonce !in N.DoRemove(N.DoCheck(s, nonce), nonce).pool
  {
    N.FindMissing(s.pool, nonce);
    if nonce in s.pool {
      N.RemovedFrom(s.pool, nonce, nonce);
    }
  }

  /** After a reply without a challenge there is nothing to answer, and the old header goes out again. */
  lemma OldHeaderStays(md5: Hash, base64: Hash, account: Account, cnonce: string, c: Client)
    requires account.authType == DIGEST
    ensures Dialled(md5, base64, account, cnonce, Replied(None, c)).authorization == c.authorization
  {
    hide Line, AnswerFields;
  }

  /**
    A whole digest login of a new client: refused with a challenge, on which the engine reconnects by
    itself, let in by that reconnect with a VALID password, with no further reconnect whatever is
    replied, and, when it connects after that, sending the same header once more, AMBIGUOUS. The
    challenge comes among whatever other headers the replies hold.
  */
  lemma DigestLogin(md5: Hash, base64: Hash, unbase64: Hash, account: Account, realm: string, nonce: string,
                    cnonces: (string, string, string), others: (Others, Others), s: N.Nonces)
    requires Worded(md5) && Usable(account) && Clean(realm) && Token(nonce) && Token(cnonces.1)
    requires N.Distinct(s.pool) && nonce !in s.pool && NoChallenge(others.0) && NoChallenge(others.1)
    ensures var c1 := Dialled(md5, base64, account, cnonces.0, NEW_CLIENT);
            var r1 := Exchange(realm, unbase64, nonce, c1, s);
            var c2 := Dialled(md5, base64, account, cnonces.1, Heard(r1.0, others.0, c1));
            var r2 := Exchange(realm, unbase64, "", c2, r1.1);
            var c3 := Dialled(md5, base64, account, cnonces.2, Heard(r2.0, others.1, c2));
            var r3 := Exchange(realm, unbase64, "", c3, r2.1);
            && r1.0.Unauthorized? && CheckRetryAuth(Context(WS_UNAUTHORIZED, Heard(r1.0, others.0, c1)))
            && r2.0.Offered? && Judge(md5, r2.0.credentials, r2.0.alive, account.password) == VALID
            && (forall code, challenge :: !CheckRetryAuth(Context(code, Replied(challenge, c2))))
            && r3.0.Offered? && Judge(md5, r3.0.credentials, r3.0.alive, account.password) == AMBIGUOUS
  {
    var c1 := Dialled(md5, base64, account, cnonces.0, NEW_CLIENT);
    FirstRefusal(md5, base64, unbase64, account, realm, cnonces.0, nonce, s);
    Issued(s, nonce);
    CountKept(md5, base64, account, cnonces.0, NEW_CLIENT);
    assert account.authType == DIGEST && NextCount(0) == 1 && NEW_CLIENT.nc == 0;
    hide *;
    var s1 := N.DoAdd(s, nonce);
    HeardChallenge(Unauthorized(ChallengeText(realm, nonce)), others.0, c1);
    LearnedRound(md5, base64, unbase64, account, realm, nonce, cnonces.1, c1, s1);
    var c2 := Dialled(md5, base64, account, cnonces.1, Replied(Some(ChallengeText(realm, nonce)), c1));
    RetriesWhenChallenged(c1, realm, nonce);
    CountKept(md5, base64, account, cnonces.1, Replied(Some(ChallengeText(realm, nonce)), c1));
    OneRetryOnly(c2);
    var r2 := Exchange(realm, unbase64, "", c2, s1);
    DistinctAfter(realm, unbase64, c2, s1);
    HeardChallenge(r2.0, others.1, c2);
    OldRound(md5, base64, unbase64, account, realm, nonce, 1, cnonces.1, cnonces.2, c2, r2.1);
    ChallengesAre(ChallengeText(realm, nonce), r2.0);
  }

  lemma RetriesWhenChallenged(c: Client, realm: string, nonce: string)
    requires c.nc == 0
    ensures var r := Replied(Some(ChallengeText(realm, nonce)), c);
            r.nc == 1 && CheckRetryAuth(Context(WS_UNAUTHORIZED, r))
  {
    Challenged(c, realm, nonce);
    hide ChallengeText, ReadChallenge;
  }

  /** Once a challenge was answered, no reply makes the engine reconnect. */
  lemma OneRetryOnly(c: Client)
    requires c.nc == 1
    ensures forall code, challenge :: !CheckRetryAuth(Context(code, Replied(challenge, c)))
  {
    hide ReadChallenge;
  }

  lemma DistinctAfter(realm: string, unbase64: Hash, c: Client, s: N.Nonces)
    requires N.Distinct(s.pool)
    ensures Exchange(realm, unbase64, "", c, s).0.Offered? ==> N.Distinct(Exchange(realm, unbase64, "", c, s).1.pool)
  {
    if c.authorization.Some? {
      var nonce := ReadAuthorization(unbase64, c.authorization.value).nonce;
      if N.Find(s.pool, nonce) < |s.pool| {
        N.RemovedFrom(s.pool, nonce, nonce);
      }
    }
    hide ReadAuthorization;
  }

  lemma ChallengesAre(v: string, o: Outcome)
    ensures ChallengeOf(Unauthorized(v)) == Some(v)
    ensures o.Offered? ==> ChallengeOf(o) == None
  {
  }

  /** What the client answers: the nonce of the last challenge, or, without one, the nonce of its old header. */
  function Answered(learned: Option<string>, kept: string): string {
    if learned.Some? then learned.value else kept
  }

  /** A reply whose first challenge is that of the nonce learned, or that holds none. */
  ghost predicate Teaches(headers: seq<HttpHeader>, realm: string, learned: Option<string>) {
    match learned
    case Some(nonce) => exists i: nat :: FirstNamed(headers, CHALLENGED, i)
                          && headers[i].val == ChallengeText(realm, nonce)
    case None => Unnamed(headers, CHALLENGED)
  }

  lemma TaughtIs(headers: seq<HttpHeader>, realm: string, learned: Option<string>)
    requires Teaches(headers, realm, learned)
    ensures Named(headers, CHALLENGED) == if learned.Some? then Some(ChallengeText(realm, learned.value)) else None
  {
    hide Named, ChallengeText, FirstNamed, Unnamed;
    ChallengedName();
    FindsFirst(headers, CHALLENGED);
  }

  /**
    A client that connects again, after a reply with a challenge or without one, is VALID exactly
    when the nonce it answers stands at the server, and AMBIGUOUS otherwise.
  */
  lemma ReconnectValidExactly(md5: Hash, base64: Hash, unbase64: Hash, account: Account, realm: string,
                              kept: (string, nat, string), headers: seq<HttpHeader>, learned: Option<string>,
                              cnonce: string, c: Client, s: N.Nonces)
    requires Worded(md5) && Usable(account) && Clean(realm) && N.Distinct(s.pool) && Token(cnonce)
    requires Token(kept.0) && kept.1 <= 0xfffe && Token(kept.2) && (learned.Some? ==> Token(learned.value))
    requires c.authorization == Some(Answer(md5, base64, account, realm, kept.0, kept.1, kept.2))
    requires Teaches(headers, realm, learned)
    ensures var d := Dialled(md5, base64, account, cnonce, Replied(Named(headers, CHALLENGED), c));
            var r := Exchange(realm, unbase64, "", d, s);
            && r.0.Offered? && Answered(learned, kept.0) !in r.1.pool
            && Judge(md5, r.0.credentials, r.0.alive, account.password)
               == (if Answered(learned, kept.0) in s.pool then VALID else AMBIGUOUS)
  {
    TaughtIs(headers, realm, learned);
    assert account.authType == DIGEST && Answered(learned, kept.0) == if learned.Some? then learned.value else kept.0;
    hide *;
    if learned.Some? {
      LearnedRound(md5, base64, unbase64, account, realm, learned.value, cnonce, c, s);
    } else {
      OldRound(md5, base64, unbase64, account, realm, kept.0, kept.1, kept.2, cnonce, c, s);
    }
  }

  lemma LearnedRound(md5: Hash, base64: Hash, unbase64: Hash, account: Account, realm: string, nonce: string,
                     cnonce: string, c: Client, s: N.Nonces)
    requires Worded(md5) && Usable(account) && Clean(realm) && Token(nonce) && Token(cnonce) && N.Distinct(s.pool)
    ensures var d := Dialled(md5, base64, account, cnonce, Replied(Some(ChallengeText(realm, nonce)), c));
            var r := Exchange(realm, unbase64, "", d, s);
            && d.authorization == Some(Answer(md5, base64, account, realm, nonce, NextCount(c.nc), cnonce))
            && r.0.Offered? && nonce !in r.1.pool
            && Judge(md5, r.0.credentials, r.0.alive, account.password)
               == (if nonce in s.pool then VALID else AMBIGUOUS)
  {
    var d := Dialled(md5, base64, account, cnonce, Replied(Some(ChallengeText(realm, nonce)), c));
    var text := Answer(md5, base64, account, realm, nonce, NextCount(c.nc), cnonce);
    hide *;
    AnswerIsSent(md5, base64, account, realm, nonce, NextCount(c.nc), cnonce, c);
    AnswerVerdict(md5, base64, unbase64, account, realm, nonce, NextCount(c.nc), cnonce, s);
    Sent(realm, unbase64, text, d, s);
  }

  lemma OldRound(md5: Hash, base64: Hash, unbase64: Hash, account: Account, realm: string, nonce: string, nc: nat,
                 cnonce: string, unused: string, c: Client, s: N.Nonces)
    requires Worded(md5) && Usable(account) && Clean(realm) && Token(nonce) && nc <= 0xfffe && Token(cnonce)
    requires N.Distinct(s.pool) && account.authType == DIGEST
    requires c.authorization == Some(Answer(md5, base64, account, realm, nonce, nc, cnonce))
    ensures var d := Dialled(md5, base64, account, unused, Replied(None, c));
            var r := Exchange(realm, unbase64, "", d, s);
            && d.authorization == c.authorization && r.0.Offered? && nonce !in r.1.pool
            && Judge(md5, r.0.credentials, r.0.alive, account.password)
               == (if nonce in s.pool then VALID else AMBIGUOUS)
  {
    var d := Dialled(md5, base64, account, unused, Replied(None, c));
    var text := Answer(md5, base64, account, realm, nonce, nc, cnonce);
    hide *;
    OldHeaderStays(md5, base64, account, unused, c);
    AnswerVerdict(md5, base64, unbase64, account, realm, nonce, nc, cnonce, s);
    Sent(realm, unbase64, text, d, s);
  }

  lemma Sent(realm: string, unbase64: Hash, text: string, d: Client, s: N.Nonces)
    requires d.authorization == Some(text)
    ensures Exchange(realm, unbase64, "", d, s) == Door(DIGEST, realm, unbase64, Some(text), "", true, false, s)
  {
    hide Door;
  }

  lemma Issued(s: N.Nonces, nonce: string)
    requires N.Distinct(s.pool) && nonce !in s.pool
    ensures N.Distinct(N.DoAdd(s, nonce).pool) && nonce in N.DoAdd(s, nonce).pool
  {
  }

  lemma CountKept(md5: Hash, base64: Hash, account: Account, cnonce: string, c: Client)
    ensures Dialled(md5, base64, account, cnonce, c).nc == c.nc
  {
    hide Authorization;
  }

  // ---- Basic ----

  lemma BasicSent(md5: Hash, base64: Hash, account: Account, cnonce: string, c: Client)
    requires account.authType == BASIC && account.username != ""
    ensures Dialled(md5, base64, account, cnonce, c).authorization
            == Some(Authorization(md5, base64, c.challenge.(kind := BASIC), 0, account.url, account.username,
                                  account.password, ""))
  {
    assert |"Basic " + base64(account.username + ":" + account.password)| >= 6;
  }

  /**
    A basic login, whatever the client learned before: offered to the handler at once, the nonces as they were,
    and only the password of the account VALID.
  */
  lemma BasicLogin(md5: Hash, base64: Hash, unbase64: Hash, account: Account, realm: string, cnonce: string,
                   draw: string, timerStarts: bool, leftOver: bool, c: Client, s: N.Nonces, other: string)
    requires account.authType == BASIC && account.username != "" && account.password != ""
    requires ':' !in account.username && ':' !in account.password
    requires unbase64(base64(account.username + ":" + account.password)) == account.username + ":" + account.password
    ensures var d := Dialled(md5, base64, account, cnonce, c);
            var r := Door(BASIC, realm, unbase64, d.authorization, draw, timerStarts, leftOver, s);
            && r.0.Offered? && r.1 == s && r.0.credentials.username == account.username
            && Judge(md5, r.0.credentials, r.0.alive, other) == if other == account.password then VALID else INVALID
  {
    var ch := c.challenge.(kind := BASIC);
    BasicSent(md5, base64, account, cnonce, c);
    BasicVerdict(md5, base64, unbase64, ch, account.url, account.username, account.password, leftOver, other);
    BasicArrives(md5, base64, unbase64, ch, account.url, account.username, account.password);
    hide Dialled, Authorization, ReadAuthorization, Judge;
  }

  /** A client without authentication sends no header, and is refused where one is asked for. */
  lemma PlainRefused(md5: Hash, base64: Hash, unbase64: Hash, account: Account, asked: AuthType, realm: string,
                     cnonce: string, draw: string, leftOver: bool, c: Client, s: N.Nonces)
    requires account.authType == UNUSED && (asked == BASIC || asked == DIGEST)
    ensures var d := Dialled(md5, base64, account, cnonce, c);
            && d.authorization == None
            && Door(asked, realm, unbase64, d.authorization, draw, true, leftOver, s).0
               == Unauthorized(if asked == BASIC then BasicChallenge(realm) else ChallengeText(realm, draw))
            && Door(UNUSED, realm, unbase64, d.authorization, draw, true, leftOver, s) == (Unchecked, s)
  {
    hide Line, ChallengeFields;
  }
}
