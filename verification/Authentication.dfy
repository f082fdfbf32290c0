/**
  Both ends of digest authentication: the answer the client prints, what the server reads from it,
  and the verdict, composed from the challenge to the verdict.
*/
module Authentication {
  import opened Basics
  import opened Text
  import opened Headers
  import opened Protocol
  import opened Digest

  // ---- The nonce count ----

  function HexDigit(d: nat): char
    requires d < 16
  {
    "0123456789abcdef"[d]
  }

  function Hex(n: nat): string {
    if n < 16 then [HexDigit(n)] else Hex(n / 16) + [HexDigit(n % 16)]
  }

  function Zeros(k: nat): string {
    if k == 0 then "" else "0" + Zeros(k - 1)
  }

  /** An ostream with width 8, fill '0', right aligned, in hexadecimal. */
  function NcText(nc: nat): string {
    if |Hex(nc)| >= 8 then Hex(nc) else Zeros(8 - |Hex(nc)|) + Hex(nc)
  }

  function HexValue(c: char): nat {
    if '0' <= c <= '9' then c as int - '0' as int else if 'a' <= c <= 'f' then c as int - 'a' as int + 10 else 0
  }

  function ReadHex(s: string): nat {
    if s == "" then 0 else 16 * ReadHex(s[..|s| - 1]) + HexValue(s[|s| - 1])
  }

  predicate IsHex(s: string) {
    forall c :: c in s ==> '0' <= c <= '9' || 'a' <= c <= 'f'
  }

  lemma {:induction false} HexReads(n: nat)
    ensures ReadHex(Hex(n)) == n && IsHex(Hex(n)) && Hex(n) != ""
  {
    if n >= 16 {
      HexReads(n / 16);
      assert Hex(n)[..|Hex(n)| - 1] == Hex(n / 16);
    } else {
      assert Hex(n)[..0] == "";
    }
  }

  lemma {:induction false} ZerosRead(k: nat, s: string)
    ensures ReadHex(Zeros(k) + s) == ReadHex(s)
    ensures |Zeros(k)| == k && IsHex(Zeros(k))
    decreases k, |s|
  {
    if s != "" {
      ZerosRead(k, s[..|s| - 1]);
      assert (Zeros(k) + s)[..|Zeros(k) + s| - 1] == Zeros(k) + s[..|s| - 1];
    } else if k > 0 {
      ZerosRead(k - 1, "");
      ZerosEnd(k);
      assert Zeros(k) + s == Zeros(k);
      assert Zeros(k)[..k - 1] == Zeros(k - 1) + "";
    }
  }

  lemma {:induction false} ZerosEnd(k: nat)
    requires k > 0
    ensures |Zeros(k)| == k && Zeros(k)[k - 1] == '0' && Zeros(k)[..k - 1] == Zeros(k - 1)
  {
    if k > 1 {
      ZerosEnd(k - 1);
      assert Zeros(k) == "0" + Zeros(k - 1);
      assert Zeros(k)[..k - 1] == "0" + Zeros(k - 1)[..k - 2];
    }
  }

  lemma {:induction false} HexLength(n: nat, k: nat)
    requires 0 < k && n < Power16(k)
    ensures |Hex(n)| <= k
    decreases k
  {
    if n >= 16 {
      assert n / 16 < Power16(k - 1);
      HexLength(n / 16, k - 1);
    }
  }

  function Power16(k: nat): nat {
    if k == 0 then 1 else 16 * Power16(k - 1)
  }

  /** The nonce count is sent as eight hexadecimal digits that read back as the count. */
  lemma NcReads(nc: nat)
    requires nc <= 0xfffe
    ensures |NcText(nc)| == 8 && ReadHex(NcText(nc)) == nc && IsHex(NcText(nc)) && Token(NcText(nc))
  {
    HexReads(nc);
    assert Power16(4) == 0x10000;
    HexLength(nc, 4);
    ZerosRead(8 - |Hex(nc)|, Hex(nc));
    HexToken(NcText(nc));
  }

  lemma HexToken(s: string)
    requires IsHex(s) && s != ""
    ensures Token(s)
  {
  }

  // ---- The answer of the client ----

  function Algorithm(ch: Challenge): seq<Field> {
    if ch.algorithm == "" then [] else [Field("algorithm", ch.algorithm)]
  }

  function Qop(ch: Challenge, cnonce: string): seq<Field> {
    if ch.qop == "" then [] else [Field("qop", "auth"), Quoted("cnonce", cnonce)]
  }

  function Identity(ch: Challenge, uri: string, username: string): seq<Field> {
    [Quoted("username", username), Quoted("realm", ch.realm), Quoted("uri", uri), Quoted("nonce", ch.nonce)]
  }

  function AnswerFields(ch: Challenge, uri: string, username: string, nc: string, cnonce: string, response: string)
    : seq<Field>
  {
    Identity(ch, uri, username) + Algorithm(ch) + [Field("nc", nc)] + Qop(ch, cnonce) + [Quoted("response", response)]
  }

  function ResponseText(md5: Hash, ch: Challenge, uri: string, username: string, password: string, nc: string,
                        cnonce: string)
    : string
  {
    var a1 := HA1(md5, username, ch.realm, password);
    if ch.qop == "" then CalcDigest(md5, a1, uri, ch.nonce, nc, "", "")
        else CalcDigest(md5, a1, uri, ch.nonce, nc, cnonce, ch.qop)
  }

  predicate Md5Only(algorithm: string) {
    algorithm == "" || algorithm == "MD5" || algorithm == "md5"
  }

  /** A digest header is printed for a nonce, a uri, a user, and no algorithm but MD5. */
  predicate Answerable(ch: Challenge, uri: string, username: string) {
    && username != "" && ch.nonce != "" && uri != ""
    && Md5Only(ch.algorithm)
  }

  function Authorization(md5: Hash, base64: Hash, ch: Challenge, nc: nat, uri: string, username: string,
                         password: string,
                         cnonce: string): string {
    if username == "" then ""
    else if ch.kind == BASIC then "Basic " + base64(username + ":" + password)
    else if ch.kind == DIGEST && Answerable(ch, uri, username) then
      "Digest" + Line(AnswerFields(ch, uri, username, NcText(nc), cnonce,
                                   ResponseText(md5, ch, uri, username, password, NcText(nc), cnonce)))
    else ""
  }

  /** The challenge as the client keeps it, and how often it was challenged. */
  class AuthenticateContextImpl {
    var kind: AuthType
    var realm: string
    var nonce: string
    var algorithm: string
    var qop: string
    var nc: nat

    function Parsed(): Challenge
      reads this
    {
      Challenge(kind, realm, nonce, algorithm, qop)
    }

    constructor (v: string)
      requires |v| < NPOS
      ensures Parsed() == ReadChallenge(v) && nc == 0
    {
      kind, realm, nonce, algorithm, qop, nc := UNUSED, "", "", "", "", 0;
      new;
      var loc := FindFrom(v, ' ', 0);
      assert v[0..loc] == v[..loc];
      if loc == |v| {
        return;
      }
      FirstIs(v, ' ', loc);
      var t := Lower(v[..loc]);
      var kv := ParseHeader(v[loc..]);
      realm := Get(kv, "realm");
      if t == "basic" {
        kind := BASIC;
      } else if t == "digest" {
        kind := DIGEST;
        nonce := Get(kv, "nonce");
        algorithm := Get(kv, "algorithm");
        qop := Get(kv, "qop");
      } else {
        kind := UNKNOWN;
      }
    }

    /** `cnonce` is the base64 of 24 random bytes. */
    method CreateAuthorizationHeader(md5: Hash, base64: Hash, uri: string, username: string, password: string,
                                     cnonce: string) returns (body: string)
      ensures body == Authorization(md5, base64, Parsed(), nc, uri, username, password, cnonce)
    {
      body := "";
      if username == "" {
        return;
      }
      if kind == BASIC {
        body := "Basic " + base64(username + ":" + password);
      } else if kind == DIGEST {
        if nonce == "" || uri == "" || (algorithm != "" && algorithm != "MD5" && algorithm != "md5") {
          return;
        }
        body := PrintAnswer(md5, uri, username, password, cnonce);
      }
    }

    method PrintAnswer(md5: Hash, uri: string, username: string, password: string, cnonce: string)
      returns (authorization: string)
      ensures authorization
              == "Digest" + Line(AnswerFields(Parsed(), uri, username, NcText(nc), cnonce,
                                              ResponseText(md5, Parsed(), uri, username, password, NcText(nc), cnonce)))
    {
      var ch := Parsed();
      authorization := PrintIdentity(uri, username);
      authorization := PrintAlgorithm(authorization, Identity(ch, uri, username));
      ghost var fields := Identity(ch, uri, username) + Algorithm(ch);
      var ncstr := NcText(nc);
      RawWord("nc=", "nc", ncstr);
      Extended(fields, Field("nc", ncstr));
      authorization := authorization + ("nc=" + ncstr + ", ");
      fields := fields + [Field("nc", ncstr)];
      authorization := PrintQop(authorization, fields, cnonce);
      fields := fields + Qop(ch, cnonce);
      var response;
      if qop != "" {
        response := CalcDigestInBuffers(md5, HA1(md5, username, realm, password), uri, nonce, ncstr, cnonce, qop);
      } else {
        response := CalcDigestInBuffers(md5, HA1(md5, username, realm, password), uri, nonce, ncstr, "", "");
      }
      hide Line, PieceOf, Quoted, Word, Started;
      QuotedWord("response=\"", "response", response);
      Finished(fields, Quoted("response", response));
      authorization := authorization + ("response=\"" + response + "\"");
    }

    method PrintAlgorithm(text: string, ghost fields: seq<Field>) returns (authorization: string)
      requires text == Started(fields)
      ensures authorization == Started(fields + Algorithm(Parsed()))
    {
      hide Line, PieceOf, Word, Started;
      authorization := text;
      if algorithm != "" {
        RawWord("algorithm=", "algorithm", algorithm);
        Extended(fields, Field("algorithm", algorithm));
        authorization := authorization + ("algorithm=" + algorithm + ", ");
      } else {
        assert fields + [] == fields;
      }
    }

    method PrintQop(text: string, ghost fields: seq<Field>, cnonce: string) returns (authorization: string)
      requires text == Started(fields)
      ensures authorization == Started(fields + Qop(Parsed(), cnonce))
    {
      hide Line, PieceOf, Word, Started;
      authorization := text;
      if qop != "" {
        RawWord("qop=", "qop", "auth");
        assert "qop=" + "auth" + ", " == "qop=auth, ";
        Extended(fields, Field("qop", "auth"));
        authorization := authorization + "qop=auth, ";
        QuotedWord("cnonce=\"", "cnonce", cnonce);
        Extended(fields + [Field("qop", "auth")], Quoted("cnonce", cnonce));
        authorization := authorization + ("cnonce=\"" + cnonce + "\", ");
        assert fields + [Field("qop", "auth")] + [Quoted("cnonce", cnonce)] == fields + Qop(Parsed(), cnonce);
      } else {
        assert fields + [] == fields;
      }
    }

    method PrintIdentity(uri: string, username: string) returns (authorization: string)
      ensures authorization == Started(Identity(Parsed(), uri, username))
    {
      var f1, f2, f3, f4 :=
        Quoted("username", username), Quoted("realm", realm), Quoted("uri", uri), Quoted("nonce", nonce);
      authorization := "Digest ";
      assert authorization == Started([]);
      hide Line, PieceOf, Quoted, Word, Started;
      QuotedWord("username=\"", "username", username);
      authorization := authorization + ("username=\"" + username + "\", ");
      Extended([], f1);
      QuotedWord("realm=\"", "realm", realm);
      authorization := authorization + ("realm=\"" + realm + "\", ");
      Extended([f1], f2);
      QuotedWord("uri=\"", "uri", uri);
      authorization := authorization + ("uri=\"" + uri + "\", ");
      Extended([f1, f2], f3);
      QuotedWord("nonce=\"", "nonce", nonce);
      authorization := authorization + ("nonce=\"" + nonce + "\", ");
      Extended([f1, f2, f3], f4);
      assert [] + [f1] == [f1] && [f1] + [f2] == [f1, f2] && [f1, f2] + [f3] == [f1, f2, f3]
             && [f1, f2, f3] + [f4] == [f1, f2, f3, f4];
    }
  }

  lemma FirstIs(s: string, c: char, i: nat)
    requires i < |s| && s[i] == c && c !in s[..i]
    ensures First(s, c) == i
  {
    assert s == s[..i] + [c] + s[i + 1..];
    FirstAfter(s[..i], c, s[i + 1..]);
  }

  /** The header after some pairs, with the comma that announces the next. */
  function Started(fields: seq<Field>): string {
    if fields == [] then "Digest " else "Digest" + Line(fields) + ", "
  }

  function Word(f: Field): string {
    f.key + "=" + f.raw
  }

  lemma PieceIsWord(f: Field)
    ensures PieceOf(f) == " " + Word(f)
  {
  }

  lemma Extended(fields: seq<Field>, f: Field)
    ensures Started(fields) + (Word(f) + ", ") == Started(fields + [f])
  {
    Finished(fields, f);
    hide Line, PieceOf;
    assert Started(fields) + (Word(f) + ", ") == Started(fields) + Word(f) + ", ";
  }

  lemma Finished(fields: seq<Field>, f: Field)
    ensures Started(fields) + Word(f) == "Digest" + Line(fields + [f])
  {
    LineAppend(fields, f);
    PieceIsWord(f);
    hide Line, PieceOf, Word;
    if fields == [] {
      assert "Digest " + Word(f) == "Digest" + (" " + Word(f));
    } else {
      assert "Digest" + Line(fields) + ", " + Word(f) == "Digest" + (Line(fields) + "," + (" " + Word(f)));
    }
  }

  lemma QuotedWord(start: string, key: string, value: string)
    requires start == key + "=\""
    ensures start + value + "\", " == Word(Quoted(key, value)) + ", "
    ensures start + value + "\"" == Word(Quoted(key, value))
  {
    assert start + value + "\"" == key + "=" + ("\"" + value + "\"");
    assert "\", " == "\"" + ", ";
    assert start + value + "\", " == start + value + "\"" + ", ";
  }

  lemma RawWord(start: string, key: string, raw: string)
    requires start == key + "="
    ensures start + raw + ", " == Word(Field(key, raw)) + ", "
  {
  }

  // ---- What the server reads, and its verdict ----

  datatype Credentials = Credentials(
    kind: AuthType, username: string, realm: string, uri: string, nonce: string, qop: string, nc: string,
    cnonce: string, response: string)

  function NoCredentials(kind: AuthType): Credentials {
    Credentials(kind, "", "", "", "", "", "", "", "")
  }

  function ReadBasic(text: string): Credentials {
    var parts := Split(text, ':');
    if |parts| != 2 then NoCredentials(BASIC)
    else Credentials(BASIC, parts[0], "", "", "", "", "", "", parts[1])
  }

  function ReadDigest(kv: map<string, string>): Credentials {
    Credentials(DIGEST, Get(kv, "username"), Get(kv, "realm"), Get(kv, "uri"), Get(kv, "nonce"), Get(kv, "qop"),
                Get(kv, "nc"), Get(kv, "cnonce"), Get(kv, "response"))
  }

  function ReadAuthorization(unbase64: Hash, v: string): Credentials {
    if ' ' !in v then NoCredentials(UNUSED)
    else
      var loc := First(v, ' ');
      var t := Lower(v[..loc]);
      if t == "basic" then ReadBasic(unbase64(v[loc + 1..]))
      else if t == "digest" then ReadDigest(Parse(v[loc..]))
      else NoCredentials(UNKNOWN)
  }

  datatype Verdict = INVALID | VALID | AMBIGUOUS

  function JudgeHash(md5: Hash, c: Credentials, alive: bool, hash: string): Verdict {
    if c.nonce == "" || c.uri == "" || c.response == "" then INVALID
    else if c.response != CalcDigest(md5, hash, c.uri, c.nonce, c.nc, c.cnonce, c.qop) then INVALID
    else if alive then VALID else AMBIGUOUS
  }

  function Judge(md5: Hash, c: Credentials, alive: bool, password: string): Verdict {
    match c.kind
    case BASIC => if password == c.response then VALID else INVALID
    case DIGEST => if c.username != "" then JudgeHash(md5, c, alive, HA1(md5, c.username, c.realm, password))
        else INVALID
    case UNKNOWN => INVALID
    case UNUSED => VALID
  }

  class AuthorizationContextImpl {
    var kind: AuthType
    var username: string
    var nonce: string
    var validNonce: bool
    var realm: string
    var uri: string
    var qop: string
    var nc: string
    var cnonce: string
    var response: string

    function Parsed(): Credentials
      reads this
    {
      Credentials(kind, username, realm, uri, nonce, qop, nc, cnonce, response)
    }

    /** The constructor of the source leaves valid_nonce as it happens to be. */
    constructor (unbase64: Hash, v: string, leftOver: bool)
      requires |v| < NPOS
      ensures Parsed() == ReadAuthorization(unbase64, v) && validNonce == leftOver
    {
      kind, username, nonce, validNonce, realm, uri := UNUSED, "", "", leftOver, "", "";
      qop, nc, cnonce, response := "", "", "", "";
      new;
      var loc := FindFrom(v, ' ', 0);
      assert v[0..loc] == v[..loc];
      if loc == |v| {
        return;
      }
      FirstIs(v, ' ', loc);
      var t := Lower(v[..loc]);
      if t == "basic" {
        TakeBasic(unbase64(v[loc + 1..]));
      } else if t == "digest" {
        var kv := ParseHeader(v[loc..]);
        TakeDigest(kv);
      } else {
        kind := UNKNOWN;
      }
    }

    method TakeBasic(text: string)
      requires Parsed() == NoCredentials(UNUSED)
      modifies this
      ensures Parsed() == ReadBasic(text) && validNonce == old(validNonce)
    {
      kind := BASIC;
      var vec := SplitString(text, ':');
      if |vec| != 2 {
        return;
      }
      username := vec[0];
      response := vec[1];
    }

    method TakeDigest(kv: map<string, string>)
      modifies this
      ensures Parsed() == ReadDigest(kv) && validNonce == old(validNonce)
    {
      kind := DIGEST;
      username := Get(kv, "username");
      nonce := Get(kv, "nonce");
      realm := Get(kv, "realm");
      uri := Get(kv, "uri");
      qop := Get(kv, "qop");
      nc := Get(kv, "nc");
      cnonce := Get(kv, "cnonce");
      response := Get(kv, "response");
    }

    method Validate(md5: Hash, password: string) returns (r: Verdict)
      ensures r == Judge(md5, Parsed(), validNonce, password)
      ensures kind == BASIC ==> r == if password == response then VALID else INVALID
      ensures kind == UNKNOWN || (kind == DIGEST && username == "") ==> r == INVALID
      ensures kind == UNUSED ==> r == VALID
    {
      if kind == BASIC {
        return if password == response then VALID else INVALID;
      } else if kind == DIGEST {
        if |username| > 0 {
          r := ValidateWithHash(md5, HA1(md5, username, realm, password));
          return;
        }
        return INVALID;
      } else if kind == UNKNOWN {
        return INVALID;
      }
      return VALID;
    }

    method ValidateWithHash(md5: Hash, hash: string) returns (r: Verdict)
      ensures r == JudgeHash(md5, Parsed(), validNonce, hash)
      ensures r != INVALID <==>
                nonce != "" && uri != "" && response != ""
                && response == CalcDigest(md5, hash, uri, nonce, nc, cnonce, qop)
      ensures r != INVALID ==> r == if validNonce then VALID else AMBIGUOUS
    {
      if |nonce| == 0 || |uri| == 0 || |response| == 0 {
        return INVALID;
      }
      var digest := CalcDigestInBuffers(md5, hash, uri, nonce, nc, cnonce, qop);
      if response == digest {
        return if validNonce then VALID else AMBIGUOUS;
      }
      return INVALID;
    }
  }

  // ---- The round trip of an answer ----

  /** What the server ought to read from an answer to that challenge. */
  function Meant(ch: Challenge, username: string, realm: string, uri: string, nc: string, cnonce: string,
                 response: string)
    : Credentials
  {
    Credentials(DIGEST, username, realm, uri, ch.nonce, if ch.qop == "" then "" else "auth", nc,
                if ch.qop == "" then "" else cnonce, response)
  }

  /** The challenge a client keeps after reading the one a server of this kind printed. */
  function Kept(realm: string, nonce: string): Challenge {
    Challenge(DIGEST, realm, nonce, "MD5", "\"auth\"")
  }

  lemma AnswerShipped(ch: Challenge, uri: string, username: string, nc: string, cnonce: string, response: string)
    requires ',' !in username && ',' !in ch.realm && ',' !in uri && Token(ch.nonce) && Md5Only(ch.algorithm)
    requires Token(nc) && Token(cnonce) && Token(response)
    ensures forall f :: f in AnswerFields(ch, uri, username, nc, cnonce, response) ==> Shipped(f)
  {
    KeyNames();
    hide Lower, LowerChar, PlainKey;
    assert forall f :: f in Identity(ch, uri, username) ==> Shipped(f);
    assert forall f :: f in Algorithm(ch) ==> Shipped(f);
    assert forall f :: f in Qop(ch, cnonce) ==> Shipped(f);
    assert Shipped(Field("nc", nc)) && Shipped(Quoted("response", response));
    hide Shipped, Identity, Algorithm, Qop;
  }

  /** The pair of each key in an answer. */
  lemma AnswerByKey(ch: Challenge, uri: string, username: string, nc: string, cnonce: string, response: string,
                    f: Field)
    requires f in AnswerFields(ch, uri, username, nc, cnonce, response)
    ensures f.key == "username" ==> f == Quoted("username", username)
    ensures f.key == "realm" ==> f == Quoted("realm", ch.realm)
    ensures f.key == "uri" ==> f == Quoted("uri", uri)
    ensures f.key == "nonce" ==> f == Quoted("nonce", ch.nonce)
    ensures f.key == "nc" ==> f == Field("nc", nc)
    ensures f.key == "qop" ==> ch.qop != "" && f == Field("qop", "auth")
    ensures f.key == "cnonce" ==> ch.qop != "" && f == Quoted("cnonce", cnonce)
    ensures f.key == "response" ==> f == Quoted("response", response)
  {
    assert f in Identity(ch, uri, username) || f in Algorithm(ch) || f == Field("nc", nc) || f in Qop(ch, cnonce)
        || f == Quoted("response", response);
    hide AnswerFields;
    assert "username"[0] != "response"[0] && "realm"[0] != "nonce"[0] && "uri"[0] != "qop"[0];
  }

  lemma AnswerHolds(ch: Challenge, uri: string, username: string, nc: string, cnonce: string, response: string)
    ensures var fields := AnswerFields(ch, uri, username, nc, cnonce, response);
            && Quoted("username", username) in fields && Quoted("realm", ch.realm) in fields
            && Quoted("uri", uri) in fields && Quoted("nonce", ch.nonce) in fields
            && Field("nc", nc) in fields && Quoted("response", response) in fields
            && (ch.qop != "" ==> Field("qop", "auth") in fields && Quoted("cnonce", cnonce) in fields)
  {
    var id := Identity(ch, uri, username);
    assert id[0] == Quoted("username", username) && id[1] == Quoted("realm", ch.realm);
    assert id[2] == Quoted("uri", uri) && id[3] == Quoted("nonce", ch.nonce);
    if ch.qop != "" {
      assert Qop(ch, cnonce)[0] == Field("qop", "auth") && Qop(ch, cnonce)[1] == Quoted("cnonce", cnonce);
    }
    hide Identity, Algorithm, Qop, Quoted;
  }

  lemma AnswerKeys(ch: Challenge, uri: string, username: string, nc: string, cnonce: string, response: string)
    ensures var fields := AnswerFields(ch, uri, username, nc, cnonce, response);
            && Sole(fields, Quoted("username", username)) && Sole(fields, Quoted("realm", ch.realm))
            && Sole(fields, Quoted("uri", uri)) && Sole(fields, Quoted("nonce", ch.nonce))
            && Sole(fields, Field("nc", nc)) && Sole(fields, Quoted("response", response))
            && (ch.qop != "" ==> Sole(fields, Field("qop", "auth")) && Sole(fields, Quoted("cnonce", cnonce)))
            && (ch.qop == "" ==> forall f :: f in fields ==> f.key != "qop" && f.key != "cnonce")
  {
    var fields := AnswerFields(ch, uri, username, nc, cnonce, response);
    AnswerHolds(ch, uri, username, nc, cnonce, response);
    hide AnswerFields;
    forall f | f in fields
      ensures f.key == "username" ==> f == Quoted("username", username)
      ensures f.key == "realm" ==> f == Quoted("realm", ch.realm)
      ensures f.key == "uri" ==> f == Quoted("uri", uri)
      ensures f.key == "nonce" ==> f == Quoted("nonce", ch.nonce)
      ensures f.key == "nc" ==> f == Field("nc", nc)
      ensures f.key == "qop" ==> ch.qop != "" && f == Field("qop", "auth")
      ensures f.key == "cnonce" ==> ch.qop != "" && f == Quoted("cnonce", cnonce)
      ensures f.key == "response" ==> f == Quoted("response", response)
    {
      AnswerByKey(ch, uri, username, nc, cnonce, response, f);
    }
  }

  /**
    The server reads what the client sent, to a challenge with or without qop, with or without an algorithm; of
    values without a comma only those with an equals sign are lost.
  */
  lemma AnswerRead(unbase64: Hash, ch: Challenge, uri: string, username: string, nc: string, cnonce: string,
                   response: string)
    requires ',' !in username && ',' !in ch.realm && ',' !in uri && Token(ch.nonce) && Md5Only(ch.algorithm)
    requires Token(nc) && Token(cnonce) && Token(response)
    ensures ReadAuthorization(unbase64, "Digest" + Line(AnswerFields(ch, uri, username, nc, cnonce, response)))
            == Meant(ch, Sent(username), Sent(ch.realm), Sent(uri), nc, cnonce, response)
  {
    var fields := AnswerFields(ch, uri, username, nc, cnonce, response);
    AnswerValues(ch, uri, username, nc, cnonce, response);
    LowerDigest();
    hide Line, Parse, Lower, AnswerFields, ReadDigest, Sent;
    ShippedRead("Digest", fields);
  }

  lemma AnswerValues(ch: Challenge, uri: string, username: string, nc: string, cnonce: string, response: string)
    requires ',' !in username && ',' !in ch.realm && ',' !in uri && Token(ch.nonce) && Md5Only(ch.algorithm)
    requires Token(nc) && Token(cnonce) && Token(response)
    ensures var fields := AnswerFields(ch, uri, username, nc, cnonce, response);
            && fields != []
            && ReadDigest(Parse(Line(fields)))
               == Meant(ch, Sent(username), Sent(ch.realm), Sent(uri), nc, cnonce, response)
  {
    hide Line, Parse, Shipped, Sole, Sent, Get, Token, AnswerFields, Clean, Bare;
    var fields := AnswerFields(ch, uri, username, nc, cnonce, response);
    AnswerShipped(ch, uri, username, nc, cnonce, response);
    AnswerKeys(ch, uri, username, nc, cnonce, response);
    AnswerHolds(ch, uri, username, nc, cnonce, response);
    TokenSent(ch.nonce);
    TokenSent(nc);
    TokenSent(cnonce);
    TokenSent(response);
    IdentityValues(fields, username, ch.realm, uri, ch.nonce);
    RestValues(fields, ch, nc, cnonce, response);
  }

  lemma RestValues(fields: seq<Field>, ch: Challenge, nc: string, cnonce: string, response: string)
    requires fields != [] && forall f :: f in fields ==> Shipped(f)
    requires Sole(fields, Field("nc", nc)) && Sole(fields, Quoted("response", response)) && Token(nc)
    requires ch.qop != "" ==> Sole(fields, Field("qop", "auth")) && Sole(fields, Quoted("cnonce", cnonce))
    requires ch.qop == "" ==> forall f :: f in fields ==> f.key != "qop" && f.key != "cnonce"
    ensures var kv := Parse(Line(fields));
            && Get(kv, "nc") == nc && Get(kv, "response") == Sent(response)
            && Get(kv, "qop") == (if ch.qop == "" then "" else "auth")
            && Get(kv, "cnonce") == (if ch.qop == "" then "" else Sent(cnonce))
  {
    hide Line, Parse, Shipped, Sole, Sent, Get, Quoted;
    WordSent(fields, "nc", nc);
    QuotedSent(fields, "response", response);
    if ch.qop != "" {
      WordSent(fields, "qop", "auth");
      QuotedSent(fields, "cnonce", cnonce);
    } else {
      PairMissing(fields, "qop");
      PairMissing(fields, "cnonce");
    }
  }

  lemma TokenSent(s: string)
    requires Token(s)
    ensures Sent(s) == s
  {
  }

  lemma IdentityValues(fields: seq<Field>, username: string, realm: string, uri: string, nonce: string)
    requires forall f :: f in fields ==> Shipped(f)
    requires Sole(fields, Quoted("username", username)) && Sole(fields, Quoted("realm", realm))
    requires Sole(fields, Quoted("uri", uri)) && Sole(fields, Quoted("nonce", nonce))
    ensures var kv := Parse(Line(fields));
            && Get(kv, "username") == Sent(username) && Get(kv, "realm") == Sent(realm)
            && Get(kv, "uri") == Sent(uri) && Get(kv, "nonce") == Sent(nonce)
  {
    hide Line, Parse, Shipped, Sole, Sent, Get, Quoted;
    QuotedSent(fields, "username", username);
    QuotedSent(fields, "realm", realm);
    QuotedSent(fields, "uri", uri);
    QuotedSent(fields, "nonce", nonce);
  }

  lemma CleanSent(s: string)
    requires '=' !in s
    ensures Sent(s) == s
  {
  }

  // ---- From the challenge to the verdict ----

  /** A hash whose results are words, as hexadecimal MD5 sums are. */
  ghost predicate Worded(md5: Hash) {
    forall s :: Token(md5(s))
  }

  function Header(md5: Hash, base64: Hash, realm: string, nonce: string, nc: nat, uri: string, username: string,
                  password: string, cnonce: string): string {
    Authorization(md5, base64, ReadChallenge("Digest" + Line(ChallengeFields(realm, nonce))), nc, uri, username,
        password,
                  cnonce)
  }

  lemma HeaderIs(md5: Hash, base64: Hash, realm: string, nonce: string, nc: nat, uri: string, username: string,
                 password: string, cnonce: string)
    requires ',' !in realm && Token(nonce) && username != "" && uri != ""
    ensures var ch := Kept(Sent(realm), nonce);
            Header(md5, base64, realm, nonce, nc, uri, username, password, cnonce)
            == "Digest" + Line(AnswerFields(ch, uri, username, NcText(nc), cnonce,
                                            ResponseText(md5, ch, uri, username, password, NcText(nc), cnonce)))
  {
    ChallengeRead(realm, nonce);
    hide Line, ChallengeFields, AnswerFields, ReadChallenge, ResponseText, NcText, Sent;
  }

  /**
    The server's challenge, read by the client, answered, and read by the server: every value
    arrives, the response is the request-digest of RFC 2617, and the right password is VALID while
    the nonce is good and AMBIGUOUS after that. Another password is INVALID unless it hashes alike.
  */
  lemma ChallengeToVerdict(md5: Hash, base64: Hash, unbase64: Hash, realm: string, nonce: string, nc: nat, uri: string,
                           username: string, password: string, cnonce: string, alive: bool, other: string)
    requires Worded(md5) && Token(nonce) && Token(cnonce) && nc <= 0xfffe
    requires username != "" && uri != "" && Clean(username) && Clean(realm) && Clean(uri)
    ensures var v := Header(md5, base64, realm, nonce, nc, uri, username, password, cnonce);
            var c := ReadAuthorization(unbase64, v);
            && c == Meant(Kept(realm, nonce), username, realm, uri, NcText(nc), cnonce, c.response)
            && ReadHex(c.nc) == nc
            && c.response == RequestDigest(md5, HA1(md5, username, realm, password), uri, nonce, NcText(nc), cnonce)
            && Judge(md5, c, alive, password) == (if alive then VALID else AMBIGUOUS)
            && (Judge(md5, c, alive, other) == INVALID <==>
                  c.response != RequestDigest(md5, HA1(md5, username, realm, other), uri, nonce, NcText(nc), cnonce))
  {
    NcReads(nc);
    CleanSent(username);
    CleanSent(realm);
    CleanSent(uri);
    var response := ResponseText(md5, Kept(realm, nonce), uri, username, password, NcText(nc), cnonce);
    Hashed(md5, Kept(realm, nonce), uri, username, password, nc, cnonce);
    HeaderIs(md5, base64, realm, nonce, nc, uri, username, password, cnonce);
    AnswerRead(unbase64, Kept(realm, nonce), uri, username, NcText(nc), cnonce, response);
    var c := Meant(Kept(realm, nonce), username, realm, uri, NcText(nc), cnonce, response);
    Verdicts(md5, c, alive, password);
    Verdicts(md5, c, alive, other);
    hide Line, Header, AnswerFields, ReadAuthorization, Worded, ResponseText, Judge, RequestDigest, HA1, NcText,
         ReadHex;
  }

  lemma Hashed(md5: Hash, ch: Challenge, uri: string, username: string, password: string, nc: nat, cnonce: string)
    requires Worded(md5) && ch.qop != "" && Token(cnonce) && Token(NcText(nc))
    ensures ResponseText(md5, ch, uri, username, password, NcText(nc), cnonce)
            == RequestDigest(md5, HA1(md5, username, ch.realm, password), uri, ch.nonce, NcText(nc), cnonce)
    ensures Token(ResponseText(md5, ch, uri, username, password, NcText(nc), cnonce))
  {
    var ha1 := HA1(md5, username, ch.realm, password);
    HashedWord(md5, username + ":" + ch.realm + ":" + password);
    DigestWord(md5, ha1, uri, ch.nonce, NcText(nc), cnonce);
    hide NcText, HA1, HA2, KD, RequestDigest, CalcDigest, Worded;
    IsRequestDigest(md5, ha1, uri, ch.nonce, NcText(nc), cnonce, ch.qop);
  }

  lemma HashedWord(md5: Hash, s: string)
    requires Worded(md5)
    ensures Token(md5(s))
  {
  }

  lemma DigestWord(md5: Hash, ha1: string, uri: string, nonce: string, nc: string, cnonce: string)
    requires Worded(md5)
    ensures Token(RequestDigest(md5, ha1, uri, nonce, nc, cnonce))
  {
    hide Token, HA2;
    HashedWord(md5, ha1 + ":" + (nonce + ":" + nc + ":" + cnonce + ":" + "auth" + ":" + HA2(md5, "GET", uri)));
  }

  /** With all its parts, an answer is judged by the request-digest alone. */
  lemma Verdicts(md5: Hash, c: Credentials, alive: bool, password: string)
    requires Worded(md5) && c.kind == DIGEST && c.username != "" && c.nonce != "" && c.uri != "" && c.response != ""
    requires c.nc != "" && c.cnonce != "" && c.qop != ""
    ensures var good := c.response == RequestDigest(md5, HA1(md5, c.username, c.realm, password), c.uri, c.nonce, c.nc,
            c.cnonce);
            Judge(md5, c, alive, password) == if !good then INVALID else if alive then VALID else AMBIGUOUS
  {
    var ha1 := HA1(md5, c.username, c.realm, password);
    assert Token(ha1);
    IsRequestDigest(md5, ha1, c.uri, c.nonce, c.nc, c.cnonce, c.qop);
  }

  /** An answer is made for a user, by scheme; for digest, to a nonce and a uri and for no algorithm but MD5. */
  lemma AnswerMadeExactly(md5: Hash, base64: Hash, ch: Challenge, nc: nat, uri: string, username: string,
                          password: string, cnonce: string)
    ensures Authorization(md5, base64, ch, nc, uri, username, password, cnonce) != ""
            <==> username != ""
                 && (|| ch.kind == BASIC
                     || (ch.kind == DIGEST && ch.nonce != "" && uri != ""
                         && (ch.algorithm == "" || ch.algorithm == "MD5" || ch.algorithm == "md5")))
  {
    hide Line, AnswerFields, ResponseText, NcText;
    assert |"Basic " + base64(username + ":" + password)| >= 6;
  }

  // ---- Exactly who is let in ----

  /**
    For a user, a realm and a uri without commas: the server takes the right password if and only if the user
    and the uri hold no equals sign, that is, if they arrive. A realm with one is lost on the way to the client
    already, and both ends hash without it. If one of them is lost, no password is taken.
  */
  lemma RightPasswordExactly(md5: Hash, base64: Hash, unbase64: Hash, realm: string, nonce: string, nc: nat,
                             uri: string, username: string, password: string, cnonce: string, alive: bool)
    requires Worded(md5) && Token(nonce) && Token(cnonce) && nc <= 0xfffe && username != "" && uri != ""
    requires ',' !in username && ',' !in realm && ',' !in uri
    ensures var v := Header(md5, base64, realm, nonce, nc, uri, username, password, cnonce);
            var c := ReadAuthorization(unbase64, v);
            && (c.username == username && c.uri == uri <==> '=' !in username && '=' !in uri)
            && Judge(md5, c, alive, password)
               == (if '=' in username || '=' in uri then INVALID else if alive then VALID else AMBIGUOUS)
            && ('=' in username || '=' in uri ==> forall other :: Judge(md5, c, alive, other) == INVALID)
  {
    NcReads(nc);
    var ch := Kept(Sent(realm), nonce);
    var response := ResponseText(md5, ch, uri, username, password, NcText(nc), cnonce);
    Hashed(md5, ch, uri, username, password, nc, cnonce);
    HeaderIs(md5, base64, realm, nonce, nc, uri, username, password, cnonce);
    CleanSent(Sent(realm));
    AnswerRead(unbase64, ch, uri, username, NcText(nc), cnonce, response);
    var c := Meant(ch, Sent(username), Sent(realm), Sent(uri), NcText(nc), cnonce, response);
    hide Line, Header, AnswerFields, ReadAuthorization, Worded, ResponseText, RequestDigest, HA1, NcText, ReadHex;
    if '=' !in username && '=' !in uri {
      Verdicts(md5, c, alive, password);
    }
  }

  /**
    The answer to whatever digest challenge, with qop or without, naming MD5 or no algorithm: if user, realm and
    uri hold neither a comma nor an equals sign, the right password is VALID while the nonce is good.
  */
  lemma AnyChallenge(md5: Hash, base64: Hash, unbase64: Hash, ch: Challenge, nc: nat, uri: string, username: string,
                     password: string, cnonce: string, alive: bool)
    requires Worded(md5) && Token(ch.nonce) && Token(cnonce) && nc <= 0xfffe && username != "" && uri != ""
    requires ch.kind == DIGEST && Md5Only(ch.algorithm) && Clean(username) && Clean(ch.realm) && Clean(uri)
    ensures var c := ReadAuthorization(unbase64, Authorization(md5, base64, ch, nc, uri, username, password, cnonce));
            Judge(md5, c, alive, password) == if alive then VALID else AMBIGUOUS
  {
    hide Line, AnswerFields, Worded, NcText, HA1;
    NcReads(nc);
    CleanSent(username);
    CleanSent(ch.realm);
    CleanSent(uri);
    var response := ResponseText(md5, ch, uri, username, password, NcText(nc), cnonce);
    ResponseIsWord(md5, ch, uri, username, password, NcText(nc), cnonce);
    AnswerRead(unbase64, ch, uri, username, NcText(nc), cnonce, response);
    hide ReadAuthorization, CalcDigest, Clean;
  }

  lemma ResponseIsWord(md5: Hash, ch: Challenge, uri: string, username: string, password: string, nc: string,
                       cnonce: string)
    requires Worded(md5)
    ensures Token(ResponseText(md5, ch, uri, username, password, nc, cnonce))
  {
    CalcIsWord(md5, HA1(md5, username, ch.realm, password), uri, ch.nonce, nc, cnonce, ch.qop);
    CalcIsWord(md5, HA1(md5, username, ch.realm, password), uri, ch.nonce, nc, "", "");
    HashedWord(md5, username + ":" + ch.realm + ":" + password);
    hide CalcDigest, Worded;
  }

  lemma CalcIsWord(md5: Hash, a1: string, uri: string, nonce: string, nc: string, cnonce: string, qop: string)
    requires Worded(md5)
    ensures a1 != "" ==> Token(CalcDigest(md5, a1, uri, nonce, nc, cnonce, qop))
  {
    hide Token;
  }

  /** The scheme of a header is its first word, in whatever case: basic, digest, or one that is not known. */
  lemma SchemeExactly(unbase64: Hash, v: string)
    ensures ReadChallenge(v).kind == ReadAuthorization(unbase64, v).kind
    ensures ReadChallenge(v).kind == UNUSED <==> ' ' !in v
    ensures ' ' in v ==>
              && (ReadChallenge(v).kind == BASIC <==> Lower(v[..First(v, ' ')]) == "basic")
              && (ReadChallenge(v).kind == DIGEST <==> Lower(v[..First(v, ' ')]) == "digest")
  {
    hide Lower, Parse, Split;
  }

  // ---- Exactly what arrives ----

  /** Values read from a digest header never hold a comma or an equals sign. */
  lemma CredentialsClean(unbase64: Hash, fields: seq<Field>)
    requires fields != []
    ensures var c := ReadAuthorization(unbase64, "Digest" + Line(fields));
            Clean(c.username) && Clean(c.realm) && Clean(c.uri)
  {
    SchemeRead("Digest", fields);
    LowerDigest();
    var v := "Digest" + Line(fields);
    ParsedIsClean(v[6..], "username");
    ParsedIsClean(v[6..], "realm");
    ParsedIsClean(v[6..], "uri");
    hide Line, Parse, Lower;
  }

  lemma ChallengeKind(realm: string, nonce: string)
    ensures ReadChallenge("Digest" + Line(ChallengeFields(realm, nonce))).kind == DIGEST
  {
    SchemeRead("Digest", ChallengeFields(realm, nonce));
    LowerDigest();
    hide Line, Parse, Lower;
  }

  /**
    The user, the realm and the uri all arrive as they were if and only if none of them holds a
    comma or an equals sign. Quotes and spaces do no harm.
  */
  lemma ArrivesExactly(md5: Hash, base64: Hash, unbase64: Hash, realm: string, nonce: string, nc: nat, uri: string,
                       username: string, password: string, cnonce: string)
    requires Worded(md5) && Token(nonce) && Token(cnonce) && nc <= 0xfffe && username != "" && uri != ""
    ensures var v := Header(md5, base64, realm, nonce, nc, uri, username, password, cnonce);
            var c := ReadAuthorization(unbase64, v);
            (c.username == username && c.realm == realm && c.uri == uri)
            <==> (Clean(username) && Clean(realm) && Clean(uri))
  {
    if Clean(username) && Clean(realm) && Clean(uri) {
      hide Worded;
      ChallengeToVerdict(md5, base64, unbase64, realm, nonce, nc, uri, username, password, cnonce, true, password);
    } else {
      var ch := ReadChallenge("Digest" + Line(ChallengeFields(realm, nonce)));
      ChallengeKind(realm, nonce);
      if Answerable(ch, uri, username) {
        var fields := AnswerFields(ch, uri, username, NcText(nc), cnonce,
                                   ResponseText(md5, ch, uri, username, password, NcText(nc), cnonce));
        CredentialsClean(unbase64, fields);
        hide Line, ChallengeFields, AnswerFields, ReadAuthorization, ReadChallenge, ResponseText;
      } else {
        hide Line, ChallengeFields;
        assert Header(md5, base64, realm, nonce, nc, uri, username, password, cnonce) == "";
        assert ReadAuthorization(unbase64, "") == NoCredentials(UNUSED);
      }
    }
  }
}
