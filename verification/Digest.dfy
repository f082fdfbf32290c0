/**
  The digest authentication exchange (RFC 2617): the server prints a challenge, the client reads
  it and prints an answer, the server reads and validates it. MD5 and base64 are parameters.
*/
module Digest {
  import opened Basics
  import opened Text
  import opened Headers
  import opened Protocol

  type Hash = string -> string

  // ---- Section 3.2.2 of RFC 2617, for the algorithm MD5 and qop "auth" ----

  function KD(md5: Hash, secret: string, data: string): string {
    md5(secret + ":" + data)
  }

  /** H(A1), with A1 = username ":" realm ":" password (section 3.2.2.2). */
  function HA1(md5: Hash, username: string, realm: string, password: string): string {
    md5(username + ":" + realm + ":" + password)
  }

  /** H(A2), with A2 = method ":" digest-uri (section 3.2.2.3). */
  function HA2(md5: Hash, httpMethod: string, uri: string): string {
    md5(httpMethod + ":" + uri)
  }

  /** The request-digest of section 3.2.2.1 for qop "auth". */
  function RequestDigest(md5: Hash, ha1: string, uri: string, nonce: string, nc: string, cnonce: string): string {
    KD(md5, ha1, nonce + ":" + nc + ":" + cnonce + ":" + "auth" + ":" + HA2(md5, "GET", uri))
  }

  // ---- CalcDigest ----

  function Part(s: string): string {
    if s == "" then "" else ":" + s
  }

  function CalcDigest(md5: Hash, a1: string, uri: string, nonce: string, nc: string, cnonce: string, qop: string)
    : string
  {
    if a1 == "" then ""
    else md5(a1 + ":" + nonce + Part(nc) + Part(cnonce) + (if qop == "" then "" else ":auth") + ":" + md5("GET:" + uri))
  }

  method CalcDigestInBuffers(md5: Hash, a1: string, uri: string, nonce: string, nc: string, cnonce: string, qop: string)
    returns (digest: string)
    ensures digest == CalcDigest(md5, a1, uri, nonce, nc, cnonce, qop)
  {
    if |a1| <= 0 {
      return "";
    }
    var a2 := "GET:";
    a2 := a2 + uri;
    a2 := md5(a2);
    var rd := a1;
    rd := rd + ":";
    rd := rd + nonce;
    if nc != "" {
      rd := rd + ":";
      rd := rd + nc;
    }
    assert rd == a1 + ":" + nonce + Part(nc);
    if cnonce != "" {
      rd := rd + ":";
      rd := rd + cnonce;
    }
    assert rd == a1 + ":" + nonce + Part(nc) + Part(cnonce);
    if qop != "" {
      rd := rd + ":auth";
    }
    assert rd == a1 + ":" + nonce + Part(nc) + Part(cnonce) + (if qop == "" then "" else ":auth");
    rd := rd + ":";
    rd := rd + a2;
    return md5(rd);
  }

  /** What is computed is the request-digest of qop "auth" whenever the three optional parts are there. */
  lemma IsRequestDigest(md5: Hash, a1: string, uri: string, nonce: string, nc: string, cnonce: string, qop: string)
    requires a1 != "" && nc != "" && cnonce != "" && qop != ""
    ensures CalcDigest(md5, a1, uri, nonce, nc, cnonce, qop) == RequestDigest(md5, a1, uri, nonce, nc, cnonce)
  {
    var ha2 := md5("GET:" + uri);
    assert "GET" + ":" + uri == "GET:" + uri;
    Regrouped(a1, nonce, nc, cnonce, ha2);
  }

  lemma Regrouped(a1: string, nonce: string, nc: string, cnonce: string, ha2: string)
    requires nc != "" && cnonce != ""
    ensures a1 + ":" + nonce + Part(nc) + Part(cnonce) + ":auth" + ":" + ha2
            == a1 + ":" + (nonce + ":" + nc + ":" + cnonce + ":" + "auth" + ":" + ha2)
  {
  }

  /** Without qop the nonce count is hashed too, which the form of section 3.2.2.1 without qop does not. */
  lemma WithoutQopDiffers()
    ensures exists md5: Hash, a1: string, uri, nonce, nc ::
              CalcDigest(md5, a1, uri, nonce, nc, "", "") != KD(md5, a1, nonce + ":" + HA2(md5, "GET", uri))
  {
    var md5: Hash := s => s;
    var d := CalcDigest(md5, "a", "", "", "1", "", "");
    assert "GET" + ":" + "" == "GET:" + "" == "GET:";
    assert d == "a" + ":" + "" + Part("1") + Part("") + "" + ":" + "GET:";
    var e := KD(md5, "a", "" + ":" + HA2(md5, "GET", ""));
    assert |d| == |e| + 2;
  }

  // ---- Texts ----

  /** The pairs as they follow one another in a header. */
  function Line(fields: seq<Field>): string {
    if fields == [] then ""
    else if |fields| == 1 then PieceOf(fields[0])
    else Line(fields[..|fields| - 1]) + "," + PieceOf(fields[|fields| - 1])
  }

  lemma LineAppend(fields: seq<Field>, f: Field)
    ensures Line(fields + [f]) == (if fields == [] then "" else Line(fields) + ",") + PieceOf(f)
  {
    assert (fields + [f])[..|fields|] == fields;
  }

  lemma {:induction false} JoinSnoc(pieces: seq<string>, p: string, sep: char)
    ensures Join(pieces + [p], sep) == if pieces == [] then p else Join(pieces, sep) + [sep] + p
  {
    if pieces != [] {
      JoinSnoc(pieces[1..], p, sep);
      assert pieces + [p] == [pieces[0]] + (pieces[1..] + [p]);
      JoinHead(pieces[0], pieces[1..] + [p], sep);
      JoinHead(pieces[0], pieces[1..], sep);
      assert [pieces[0]] + pieces[1..] == pieces;
    }
  }

  lemma {:induction false} PiecesSnoc(fields: seq<Field>, f: Field)
    ensures Pieces(fields + [f]) == Pieces(fields) + [PieceOf(f)]
  {
    if fields != [] {
      PiecesSnoc(fields[1..], f);
      assert (fields + [f])[1..] == fields[1..] + [f];
    }
  }

  lemma {:induction false} PiecesLength(fields: seq<Field>)
    ensures |Pieces(fields)| == |fields|
  {
    if fields != [] {
      PiecesLength(fields[1..]);
    }
  }

  lemma {:induction false} LineIsJoin(fields: seq<Field>)
    ensures Line(fields) == Join(Pieces(fields), ',')
  {
    if fields != [] {
      var init, f := fields[..|fields| - 1], fields[|fields| - 1];
      LineIsJoin(init);
      assert fields == init + [f];
      PiecesSnoc(init, f);
      PiecesLength(init);
      JoinSnoc(Pieces(init), PieceOf(f), ',');
      LineAppend(init, f);
    }
  }

  /** The scheme ends at the first space, whatever the pairs hold. */
  lemma SchemeRead(scheme: string, fields: seq<Field>)
    requires ' ' !in scheme && fields != []
    ensures var v := scheme + Line(fields);
            ' ' in v && First(v, ' ') == |scheme| && v[..|scheme|] == scheme
  {
    LineStarts(fields);
    hide Line;
    var v := scheme + Line(fields);
    assert v == scheme + [' '] + Line(fields)[1..];
    FirstAfter(scheme, ' ', Line(fields)[1..]);
  }

  lemma {:induction false} LineStarts(fields: seq<Field>)
    requires fields != []
    ensures Line(fields) != "" && Line(fields)[0] == ' '
  {
    if |fields| > 1 {
      LineStarts(fields[..|fields| - 1]);
    }
  }

  /** What is left of a value without a comma on its way to the other end. */
  function Sent(value: string): string {
    if '=' in value then "" else value
  }

  lemma {:induction false} PiecesShipped(fields: seq<Field>)
    requires forall f :: f in fields ==> Shipped(f)
    ensures |Pieces(fields)| == |fields|
    ensures forall p :: p in Pieces(fields) ==> ',' !in p && p != ""
  {
    if fields != [] {
      assert fields[0] in fields;
      PiecesShipped(fields[1..]);
    }
  }

  lemma ParseShipped(fields: seq<Field>)
    requires fields != [] && forall f :: f in fields ==> Shipped(f)
    ensures Parse(Line(fields)) == InsertAll(Pieces(fields), map[])
  {
    PiecesShipped(fields);
    assert Pieces(fields)[|fields| - 1] in Pieces(fields);
    LineIsJoin(fields);
    SplitJoin(Pieces(fields), ',');
    hide Line, Pieces, Join, Split, Shipped;
  }

  /** The only pair with its key. */
  ghost predicate Sole(fields: seq<Field>, f: Field) {
    f in fields && forall g :: g in fields && g.key == f.key ==> g == f
  }

  lemma QuotedSent(fields: seq<Field>, key: string, value: string)
    requires Sole(fields, Quoted(key, value)) && (forall f :: f in fields ==> Shipped(f)) && !Bare(key)
    ensures Get(Parse(Line(fields)), key) == Sent(value)
  {
    ParseShipped(fields);
    ReadOrLost(fields, map[], Quoted(key, value));
    hide Line, Pieces, InsertAll, Parse, Shipped;
    QuotedValue(key, value);
  }

  lemma WordSent(fields: seq<Field>, key: string, raw: string)
    requires Sole(fields, Field(key, raw)) && (forall f :: f in fields ==> Shipped(f))
    requires Clean(raw) && ' ' !in raw && (Bare(key) || '"' !in raw)
    ensures Get(Parse(Line(fields)), key) == raw
  {
    ParseShipped(fields);
    ReadOrLost(fields, map[], Field(key, raw));
    hide Line, Pieces, InsertAll, Parse, Shipped;
    WithoutNone(raw, ' ');
  }

  /** A key that no pair has. */
  lemma PairMissing(fields: seq<Field>, key: string)
    requires fields != [] && forall f :: f in fields ==> Shipped(f) && f.key != key
    ensures Get(Parse(Line(fields)), key) == ""
  {
    ParseShipped(fields);
    NothingRead(fields, map[], key);
    hide Line, Pieces, InsertAll, Parse, Shipped;
  }

  /** A header with that scheme is read pair by pair. */
  lemma ShippedRead(scheme: string, fields: seq<Field>)
    requires ' ' !in scheme && fields != []
    ensures var v := scheme + Line(fields);
            ' ' in v && First(v, ' ') == |scheme| && v[..|scheme|] == scheme && v[|scheme|..] == Line(fields)
  {
    SchemeRead(scheme, fields);
    hide Line;
  }

  // ---- The challenge ----

  function ChallengeFields(realm: string, nonce: string): seq<Field> {
    [Quoted("realm", realm), Field("algorithm", "MD5"), Quoted("qop", "auth"), Quoted("nonce", nonce)]
  }

  /** CreateAuthenticationHeader of the server, for digest. */
  method PrintChallenge(realm: string, nonce: string) returns (v: string)
    ensures v == "Digest" + Line(ChallengeFields(realm, nonce))
  {
    var f1, f2, f3, f4 := Quoted("realm", realm), Field("algorithm", "MD5"), Quoted("qop", "auth"),
        Quoted("nonce", nonce);
    ChallengeWords(realm, nonce);
    hide Line, PieceOf, Quoted;
    v := "Digest" + (" realm=\"" + realm + "\"");
    LineExtended("Digest", [], f1);
    v := v + ", algorithm=MD5";
    LineExtended("Digest", [f1], f2);
    v := v + ", qop=\"auth\"";
    LineExtended("Digest", [f1, f2], f3);
    v := v + (", nonce=\"" + nonce + "\"");
    LineExtended("Digest", [f1, f2, f3], f4);
    assert [f1] + [f2] == [f1, f2] && [f1, f2] + [f3] == [f1, f2, f3] && [f1, f2, f3] + [f4] == [f1, f2, f3, f4];
  }

  lemma LineExtended(scheme: string, fields: seq<Field>, f: Field)
    ensures fields != [] ==> scheme + Line(fields) + ("," + PieceOf(f)) == scheme + Line(fields + [f])
    ensures fields == [] ==> fields + [f] == [f] && scheme + PieceOf(f) == scheme + Line([f])
  {
    LineAppend(fields, f);
  }

  lemma ChallengeWords(realm: string, nonce: string)
    ensures " realm=\"" + realm + "\"" == PieceOf(Quoted("realm", realm))
    ensures ", algorithm=MD5" == "," + PieceOf(Field("algorithm", "MD5"))
    ensures ", qop=\"auth\"" == "," + PieceOf(Quoted("qop", "auth"))
    ensures ", nonce=\"" + nonce + "\"" == "," + PieceOf(Quoted("nonce", nonce))
  {
    assert " realm=\"" == " " + "realm" + "=" + "\"";
    assert ", nonce=\"" == "," + (" " + "nonce" + "=" + "\"");
    QuotedText(" " + "realm" + "=", realm);
    QuotedText(" " + "nonce" + "=", nonce);
  }

  lemma QuotedText(start: string, value: string)
    ensures start + "\"" + value + "\"" == start + ("\"" + value + "\"")
  {
  }

  datatype Challenge = Challenge(kind: AuthType, realm: string, nonce: string, algorithm: string, qop: string)

  function ReadChallenge(v: string): Challenge {
    if ' ' !in v then Challenge(UNUSED, "", "", "", "")
    else
      var t := Lower(v[..First(v, ' ')]);
      var kv := Parse(v[First(v, ' ')..]);
      if t == "basic" then Challenge(BASIC, Get(kv, "realm"), "", "", "")
      else if t == "digest" then
        Challenge(DIGEST, Get(kv, "realm"), Get(kv, "nonce"), Get(kv, "algorithm"), Get(kv, "qop"))
      else Challenge(UNKNOWN, Get(kv, "realm"), "", "", "")
  }

  // ---- Words that are safe in a header ----

  /** Text like base64 of 24 bytes, or hexadecimal: not empty, no comma, equals sign, quote or space. */
  predicate Token(s: string) {
    s != "" && Clean(s) && '"' !in s && ' ' !in s
  }

  predicate Letters(s: string) {
    forall c :: c in s ==> 'a' <= c <= 'z'
  }

  lemma LettersPlain(key: string)
    requires Letters(key)
    ensures PlainKey(key)
  {
    forall i | 0 <= i < |key|
      ensures LowerChar(key[i]) == key[i]
    {
      assert key[i] in key;
    }
  }

  lemma KeyNames()
    ensures PlainKey("realm") && PlainKey("algorithm") && PlainKey("qop") && PlainKey("nonce")
    ensures PlainKey("username") && PlainKey("uri") && PlainKey("nc") && PlainKey("cnonce") && PlainKey("response")
  {
    LettersPlain("realm");
    LettersPlain("algorithm");
    LettersPlain("qop");
    LettersPlain("nonce");
    LettersPlain("username");
    LettersPlain("uri");
    LettersPlain("nc");
    LettersPlain("cnonce");
    LettersPlain("response");
  }

  lemma QuotedValue(key: string, value: string)
    requires !Bare(key)
    ensures Value(key, Quoted(key, value).raw) == value
  {
    UnquotedQuoted(value);
  }

  /**
    The challenge is read as it was meant, quotes around auth and all, but for an equals sign in the realm: then
    the client reads no realm.
  */
  lemma ChallengeRead(realm: string, nonce: string)
    requires ',' !in realm && Token(nonce)
    ensures ReadChallenge("Digest" + Line(ChallengeFields(realm, nonce)))
            == Challenge(DIGEST, Sent(realm), nonce, "MD5", "\"auth\"")
  {
    ChallengePairs(realm, nonce);
    LowerDigest();
    hide Line, Parse, Lower, ChallengeFields, Sent;
    ShippedRead("Digest", ChallengeFields(realm, nonce));
  }

  lemma ChallengePairs(realm: string, nonce: string)
    requires ',' !in realm && Token(nonce)
    ensures ChallengeFields(realm, nonce) != []
    ensures var kv := Parse(Line(ChallengeFields(realm, nonce)));
            && Get(kv, "realm") == Sent(realm) && Get(kv, "nonce") == nonce
            && Get(kv, "algorithm") == "MD5" && Get(kv, "qop") == "\"auth\""
  {
    var fields := ChallengeFields(realm, nonce);
    ChallengeShipped(realm, nonce);
    ChallengeKeys(realm, nonce);
    hide Line, Parse, Shipped, Sole, Get, Quoted;
    QuotedSent(fields, "realm", realm);
    WordSent(fields, "algorithm", "MD5");
    QopSent(fields);
    QuotedSent(fields, "nonce", nonce);
  }

  lemma QopSent(fields: seq<Field>)
    requires Sole(fields, Quoted("qop", "auth")) && forall f :: f in fields ==> Shipped(f)
    ensures Get(Parse(Line(fields)), "qop") == "\"auth\""
  {
    assert Quoted("qop", "auth") == Field("qop", "\"auth\"");
    hide Line, Parse, Shipped, Sole, Get;
    WordSent(fields, "qop", "\"auth\"");
  }

  lemma ChallengeKeys(realm: string, nonce: string)
    ensures forall f :: f in ChallengeFields(realm, nonce) ==> Sole(ChallengeFields(realm, nonce), f)
    ensures var fields := ChallengeFields(realm, nonce);
            && Quoted("realm", realm) in fields && Field("algorithm", "MD5") in fields
            && Quoted("qop", "auth") in fields && Quoted("nonce", nonce) in fields
  {
    var fields := ChallengeFields(realm, nonce);
    assert fields[0] == Quoted("realm", realm) && fields[1] == Field("algorithm", "MD5");
    assert fields[2] == Quoted("qop", "auth") && fields[3] == Quoted("nonce", nonce);
    assert "realm"[0] != "nonce"[0];
  }

  lemma ChallengeShipped(realm: string, nonce: string)
    requires ',' !in realm && Token(nonce)
    ensures forall f :: f in ChallengeFields(realm, nonce) ==> Shipped(f)
  {
    KeyNames();
    hide Lower, LowerChar, PlainKey;
  }

  lemma LowerDigest()
    ensures Lower("Digest") == "digest" && ' ' !in "Digest"
  {
  }

}
