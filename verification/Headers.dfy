/**
  Reading a list of key=value pairs: Parse in auth_context_impl.cpp, with its quote trimming in
  wrapping size_t arithmetic, and the round trip with a printed list.
*/
module Headers {
  import opened Basics
  import opened Text

  // ---- Characters ----

  function LowerChar(c: char): char {
    if 'A' <= c <= 'Z' then (c as int + 32) as char else c
  }

  function Lower(s: string): (r: string)
    ensures |r| == |s|
  {
    seq(|s|, i requires 0 <= i < |s| => LowerChar(s[i]))
  }

  /** std::remove and erase. */
  function Without(s: string, c: char): string {
    if s == "" then "" else (if s[0] == c then "" else [s[0]]) + Without(s[1..], c)
  }

  lemma {:induction false} WithoutNone(s: string, c: char)
    requires c !in s
    ensures Without(s, c) == s
  {
    if s != "" {
      WithoutNone(s[1..], c);
    }
  }

  // ---- Quotes ----

  const NPOS := 0xFFFF_FFFF_FFFF_FFFF

  function SizeT(x: int): nat {
    x % 0x1_0000_0000_0000_0000
  }

  function FindFirst(s: string, c: char): nat {
    if c in s then First(s, c) else NPOS
  }

  function FindLast(s: string, c: char): nat {
    if c in s then Last(s, c) else NPOS
  }

  /** std::string::substr: at most n characters, fewer at the end of the string. */
  function Substr(s: string, pos: nat, n: nat): string
    requires pos <= |s|
  {
    s[pos..if n < |s| - pos then pos + n else |s|]
  }

  /** What is between the first and the last quote; after a single quote; all of it without one. */
  function Unquoted(v: string): string {
    if '"' !in v then v
    else if First(v, '"') == Last(v, '"') then v[First(v, '"') + 1..]
    else v[First(v, '"') + 1..Last(v, '"')]
  }

  lemma FirstBeforeLast(v: string, c: char)
    requires c in v
    ensures First(v, c) <= Last(v, c) < |v|
  {
    var f := First(v, c);
    forall k | 0 <= k < f
      ensures v[k] != c
    {
      assert v[..f][k] == v[k];
    }
  }

  lemma SizeTWraps(x: int)
    requires -1 <= x <= NPOS + 1
    ensures SizeT(x) == if x == -1 then NPOS else if x == NPOS + 1 then 0 else x
  {
  }

  /** The wrapping arithmetic never starts past the end, and computes just that. */
  lemma QuoteTrimming(v: string)
    requires |v| < NPOS
    ensures SizeT(FindFirst(v, '"') + 1) <= |v|
    ensures Substr(v, SizeT(FindFirst(v, '"') + 1), SizeT(FindLast(v, '"') - FindFirst(v, '"') - 1)) == Unquoted(v)
  {
    if '"' in v {
      FirstBeforeLast(v, '"');
    }
    SizeTWraps(FindFirst(v, '"') + 1);
    SizeTWraps(FindLast(v, '"') - FindFirst(v, '"') - 1);
    hide SizeT;
  }

  lemma UnquotedQuoted(v: string)
    ensures Unquoted("\"" + v + "\"") == v
  {
    var q := "\"" + v + "\"";
    assert q[0] == '"' && q[|q| - 1] == '"';
    assert First(q, '"') == 0 && Last(q, '"') == |q| - 1;
    assert q[1..|q| - 1] == v;
  }

  // ---- Pairs ----

  predicate Bare(key: string) {
    key == "qop" || key == "nc"
  }

  function Value(key: string, raw: string): string {
    if Bare(key) then Without(raw, ' ') else Unquoted(raw)
  }

  function Key(raw: string): string {
    Lower(Without(raw, ' '))
  }

  /** One piece: a pair, unless it does not split into exactly two at '='. The first pair of a key wins. */
  function Insert(piece: string, kv: map<string, string>): map<string, string> {
    var parts := Split(piece, '=');
    if |parts| != 2 || Key(parts[0]) in kv then kv
    else kv[Key(parts[0]) := Value(Key(parts[0]), parts[1])]
  }

  function InsertAll(pieces: seq<string>, kv: map<string, string>): map<string, string> {
    if pieces == [] then kv else InsertAll(pieces[1..], Insert(pieces[0], kv))
  }

  function Parse(src: string): map<string, string> {
    InsertAll(Split(src, ','), map[])
  }

  /** kv["key"], which makes an empty string for a missing key. */
  function Get(kv: map<string, string>, key: string): string {
    if key in kv then kv[key] else ""
  }

  method TrimQuotes(v: string) returns (r: string)
    requires |v| < NPOS
    ensures r == Unquoted(v)
  {
    QuoteTrimming(v);
    var fQuote: int, lQuote: int := FindFirst(v, '"'), FindLast(v, '"');
    r := Substr(v, SizeT(fQuote + 1), SizeT(lQuote - fQuote - 1));
  }

  lemma {:induction false} PiecesShorter(s: string, sep: char)
    ensures forall p :: p in Split(s, sep) ==> |p| <= |s|
    decreases |s|
  {
    if s != "" && sep in s {
      PiecesShorter(s[First(s, sep) + 1..], sep);
    }
  }

  method ParseHeader(src: string) returns (kv: map<string, string>)
    requires |src| < NPOS
    ensures kv == Parse(src)
  {
    kv := map[];
    var vec := SplitString(src, ',');
    var it := 0;
    PiecesShorter(src, ',');
    while it < |vec|
      invariant it <= |vec|
      invariant InsertAll(vec[it..], kv) == Parse(src)
    {
      hide Parse, Split;
      assert vec[it..][1..] == vec[it + 1..];
      assert vec[it] in Split(src, ',');
      kv := InsertPair(vec[it], kv);
      it := it + 1;
    }
  }

  method InsertPair(piece: string, kv: map<string, string>) returns (r: map<string, string>)
    requires |piece| < NPOS
    ensures r == Insert(piece, kv)
  {
    var kvVec := SplitString(piece, '=');
    if |kvVec| != 2 {
      return kv;
    }
    PiecesShorter(piece, '=');
    assert kvVec[1] in Split(piece, '=');
    var key := Lower(Without(kvVec[0], ' '));
    var value;
    if key == "qop" || key == "nc" {
      value := Without(kvVec[1], ' ');
    } else {
      value := TrimQuotes(kvVec[1]);
    }
    r := if key in kv then kv else kv[key := value];
  }

  // ---- What survives ----

  predicate Clean(s: string) {
    ',' !in s && '=' !in s
  }

  lemma {:induction false} WithoutSubset(s: string, c: char)
    ensures forall x :: x in Without(s, c) ==> x in s
  {
    if s != "" {
      WithoutSubset(s[1..], c);
    }
  }

  lemma UnquotedSubset(v: string)
    ensures forall x :: x in Unquoted(v) ==> x in v
  {
    if '"' in v {
      FirstBeforeLast(v, '"');
    }
  }

  lemma {:induction false} PieceSubset(s: string, sep: char)
    ensures forall p, x :: p in Split(s, sep) && x in p ==> x in s
    decreases |s|
  {
    if s != "" && sep in s {
      PieceSubset(s[First(s, sep) + 1..], sep);
    }
  }

  lemma InsertClean(piece: string, kv: map<string, string>)
    requires ',' !in piece && forall k :: k in kv ==> Clean(kv[k])
    ensures forall k :: k in Insert(piece, kv) ==> Clean(Insert(piece, kv)[k])
  {
    var parts := Split(piece, '=');
    if |parts| == 2 {
      PiecesHaveNoSeparator(piece, '=');
      PieceSubset(piece, '=');
      assert parts[1] in parts;
      WithoutSubset(parts[1], ' ');
      UnquotedSubset(parts[1]);
      assert Clean(Value(Key(parts[0]), parts[1]));
    }
  }

  lemma {:induction false} InsertAllClean(pieces: seq<string>, kv: map<string, string>)
    requires forall p :: p in pieces ==> ',' !in p
    requires forall k :: k in kv ==> Clean(kv[k])
    ensures forall k :: k in InsertAll(pieces, kv) ==> Clean(InsertAll(pieces, kv)[k])
    decreases |pieces|
  {
    if pieces != [] {
      InsertClean(pieces[0], kv);
      hide Insert;
      InsertAllClean(pieces[1..], Insert(pieces[0], kv));
    }
  }

  /** Whatever the text, no value that is read holds a comma or an equals sign. */
  lemma ParsedIsClean(src: string, key: string)
    ensures Clean(Get(Parse(src), key))
  {
    PiecesHaveNoSeparator(src, ',');
    InsertAllClean(Split(src, ','), map[]);
  }

  // ---- Printed lists ----

  /** A pair as it is printed: `raw` is the text after the equals sign. */
  datatype Field = Field(key: string, raw: string)

  function Quoted(key: string, value: string): Field {
    Field(key, "\"" + value + "\"")
  }

  function PieceOf(f: Field): string {
    " " + f.key + "=" + f.raw
  }

  function Pieces(fields: seq<Field>): seq<string> {
    if fields == [] then [] else [PieceOf(fields[0])] + Pieces(fields[1..])
  }

  predicate PlainKey(key: string) {
    Lower(key) == key && ' ' !in key && Clean(key)
  }

  predicate GoodField(f: Field) {
    PlainKey(f.key) && f.raw != "" && Clean(f.raw)
  }

  /** What a list of fields means: the first value of each key. */
  function Meaning(fields: seq<Field>, kv: map<string, string>): map<string, string> {
    if fields == [] then kv
    else Meaning(fields[1..], if fields[0].key in kv then kv
        else kv[fields[0].key := Value(fields[0].key, fields[0].raw)])
  }

  lemma PieceParts(f: Field)
    requires PlainKey(f.key) && f.raw != "" && '=' !in f.raw
    ensures Split(PieceOf(f), '=') == [" " + f.key, f.raw]
    ensures Key(" " + f.key) == f.key
  {
    SplitJoin([" " + f.key, f.raw], '=');
    assert [" " + f.key, f.raw][1..] == [f.raw];
    assert Join([" " + f.key, f.raw], '=') == PieceOf(f);
    assert (" " + f.key)[1..] == f.key;
    WithoutNone(f.key, ' ');
  }

  lemma {:induction false} PiecesGood(fields: seq<Field>)
    requires forall f :: f in fields ==> GoodField(f)
    ensures |Pieces(fields)| == |fields|
    ensures forall p :: p in Pieces(fields) ==> ',' !in p && p != ""
  {
    if fields != [] {
      assert fields[0] in fields;
      PiecesGood(fields[1..]);
    }
  }

  lemma {:induction false} InsertFields(fields: seq<Field>, kv: map<string, string>)
    requires forall f :: f in fields ==> GoodField(f)
    ensures InsertAll(Pieces(fields), kv) == Meaning(fields, kv)
    decreases |fields|
  {
    if fields != [] {
      assert fields[0] in fields;
      PieceParts(fields[0]);
      assert Pieces(fields)[1..] == Pieces(fields[1..]);
      InsertFields(fields[1..], Insert(PieceOf(fields[0]), kv));
    }
  }

  /** A printed list of good fields is read back as what it means. */
  lemma ParsePrinted(fields: seq<Field>)
    requires forall f :: f in fields ==> GoodField(f)
    ensures Parse(Join(Pieces(fields), ',')) == Meaning(fields, map[])
  {
    PiecesGood(fields);
    assert fields != [] ==> Pieces(fields)[|fields| - 1] in Pieces(fields);
    SplitJoin(Pieces(fields), ',');
    InsertFields(fields, map[]);
  }

  // ---- What does not survive ----

  /** A pair without a comma that ends in no equals sign, as every word and every quoted value does. */
  predicate Shipped(f: Field) {
    PlainKey(f.key) && ',' !in f.raw && f.raw != "" && f.raw[|f.raw| - 1] != '='
  }

  /** An equals sign in the value makes its piece split into three or more, and the pair is dropped. */
  lemma InsertShipped(f: Field, kv: map<string, string>)
    requires Shipped(f)
    ensures Insert(PieceOf(f), kv)
            == if '=' in f.raw || f.key in kv then kv else kv[f.key := Value(f.key, f.raw)]
  {
    if '=' in f.raw {
      EqualsTwice(f);
      PieceCount(PieceOf(f), '=');
      hide PieceOf, Occurrences;
    } else {
      hide PieceOf;
      PieceParts(f);
    }
  }

  lemma EqualsTwice(f: Field)
    requires Shipped(f) && '=' in f.raw
    ensures Occurrences(PieceOf(f), '=') >= 2 && !EndsWith(PieceOf(f), '=')
  {
    assert PieceOf(f) == (" " + f.key) + ("=" + f.raw);
    OccurrencesConcat(" " + f.key, "=" + f.raw, '=');
    OccurrencesConcat("=", f.raw, '=');
    OccursIn(f.raw, '=');
    assert Occurrences("=", '=') == 1;
    hide Occurrences;
  }

  lemma {:induction false} NothingRead(fields: seq<Field>, kv: map<string, string>, key: string)
    requires (forall f :: f in fields ==> Shipped(f) && f.key != key)
    ensures Get(InsertAll(Pieces(fields), kv), key) == Get(kv, key)
    decreases |fields|
  {
    if fields != [] {
      assert fields[0] in fields;
      InsertShipped(fields[0], kv);
      assert Pieces(fields)[1..] == Pieces(fields[1..]);
      NothingRead(fields[1..], Insert(PieceOf(fields[0]), kv), key);
    }
  }

  /** Of pairs with different keys, a value arrives unless it holds an equals sign: then nothing does. */
  lemma {:induction false} ReadOrLost(fields: seq<Field>, kv: map<string, string>, f: Field)
    requires f in fields && (forall g :: g in fields ==> Shipped(g)) && f.key !in kv
    requires forall g :: g in fields && g.key == f.key ==> g == f
    ensures Get(InsertAll(Pieces(fields), kv), f.key) == if '=' in f.raw then "" else Value(f.key, f.raw)
    decreases |fields|
  {
    var head, rest := fields[0], fields[1..];
    assert head in fields && Pieces(fields)[1..] == Pieces(rest);
    InsertShipped(head, kv);
    hide Shipped, Insert, PieceOf;
    if head == f && '=' !in f.raw {
      KeptThrough(rest, Insert(PieceOf(f), kv), f.key);
    } else if f in rest {
      ReadOrLost(rest, Insert(PieceOf(head), kv), f);
    } else {
      NothingRead(rest, Insert(PieceOf(head), kv), f.key);
    }
  }

  /** The first pair of a key that is read at all wins, whatever follows. */
  lemma {:induction false} FirstWins(fields: seq<Field>, kv: map<string, string>, i: nat)
    requires i < |fields| && (forall f :: f in fields ==> Shipped(f)) && fields[i].key !in kv && '=' !in fields[i].raw
    requires forall j :: 0 <= j < i && fields[j].key == fields[i].key ==> '=' in fields[j].raw
    ensures Get(InsertAll(Pieces(fields), kv), fields[i].key) == Value(fields[i].key, fields[i].raw)
    decreases |fields|
  {
    var f, rest := fields[0], fields[1..];
    assert f in fields && Pieces(fields)[1..] == Pieces(rest);
    InsertShipped(f, kv);
    hide Shipped, Insert, PieceOf;
    if i == 0 {
      KeptThrough(rest, Insert(PieceOf(f), kv), f.key);
    } else {
      assert rest[i - 1] == fields[i];
      FirstWins(rest, Insert(PieceOf(f), kv), i - 1);
    }
  }

  lemma {:induction false} KeptThrough(fields: seq<Field>, kv: map<string, string>, key: string)
    requires key in kv && forall f :: f in fields ==> Shipped(f)
    ensures Get(InsertAll(Pieces(fields), kv), key) == kv[key]
    decreases |fields|
  {
    if fields != [] {
      assert fields[0] in fields;
      InsertShipped(fields[0], kv);
      assert Pieces(fields)[1..] == Pieces(fields[1..]);
      KeptThrough(fields[1..], Insert(PieceOf(fields[0]), kv), key);
    }
  }

  // ---- Which pieces are pairs, and under which key ----

  /** A piece counts if it holds one equals sign, with something after it, or two, with nothing after the second. */
  lemma PairExactly(piece: string, kv: map<string, string>)
    ensures var pairs := Occurrences(piece, '=') + (if piece == "" || EndsWith(piece, '=') then 0 else 1) == 2;
            && (!pairs ==> Insert(piece, kv) == kv)
            && (pairs ==> Key(piece[..First(piece, '=')]) in Insert(piece, kv))
  {
    PieceCount(piece, '=');
    OccursIn(piece, '=');
    hide Occurrences, EndsWith, Key, Value;
  }

  lemma {:induction false} WithoutConcat(s: string, t: string, c: char)
    ensures Without(s + t, c) == Without(s, c) + Without(t, c)
  {
    if s == "" {
      assert s + t == t;
    } else {
      assert (s + t)[1..] == s[1..] + t;
      WithoutConcat(s[1..], t, c);
    }
  }

  lemma {:induction false} LowerWithout(s: string)
    ensures Lower(Without(s, ' ')) == Without(Lower(s), ' ')
  {
    if s != "" {
      assert Lower(s) == [LowerChar(s[0])] + Lower(s[1..]);
      assert Lower(s)[1..] == Lower(s[1..]);
      LowerWithout(s[1..]);
      assert LowerChar(s[0]) == ' ' <==> s[0] == ' ';
      if s[0] != ' ' {
        assert Without(s, ' ') == [s[0]] + Without(s[1..], ' ');
        assert Lower([s[0]] + Without(s[1..], ' ')) == [LowerChar(s[0])] + Lower(Without(s[1..], ' '));
      }
    }
  }

  lemma KeyAnyCase(s: string, t: string)
    requires Lower(s) == Lower(t)
    ensures Key(s) == Key(t)
  {
    hide Without, Lower;
    LowerWithout(s);
    LowerWithout(t);
  }

  lemma KeyAnySpaces(s: string, t: string)
    ensures Without(s + " " + t, ' ') == Without(s + t, ' ')
  {
    assert Without(" ", ' ') == "";
    hide Without;
    WithoutConcat(s + " ", t, ' ');
    WithoutConcat(s, " ", ' ');
    WithoutConcat(s, t, ' ');
  }

  /** A key counts in whatever case it is written and wherever it holds spaces, and a plain key as it is. */
  lemma KeyExactly(s: string, t: string)
    ensures Lower(s) == Lower(t) ==> Key(s) == Key(t)
    ensures Key(s + " " + t) == Key(s + t)
    ensures PlainKey(s) ==> Key(s) == s
  {
    hide Without, Lower, Clean;
    if Lower(s) == Lower(t) {
      KeyAnyCase(s, t);
    }
    KeyAnySpaces(s, t);
    if ' ' !in s {
      WithoutNone(s, ' ');
    }
  }

  // ---- The headers of a request or a reply ----

  datatype HttpHeader = HttpHeader(key: string, val: string)

  function Named(headers: seq<HttpHeader>, name: string): Option<string> {
    if headers == [] then None
    else if Lower(headers[0].key) == Lower(name) then Some(headers[0].val)
    else Named(headers[1..], name)
  }

  /** No header has that name, upper case or lower. */
  predicate Unnamed(headers: seq<HttpHeader>, name: string) {
    forall h :: h in headers ==> Lower(h.key) != name
  }

  /** The first header of that name. */
  predicate FirstNamed(headers: seq<HttpHeader>, name: string, i: nat) {
    i < |headers| && Lower(headers[i].key) == name && Unnamed(headers[..i], name)
  }

  lemma LowerStays(s: string)
    requires forall c :: c in s ==> !('A' <= c <= 'Z')
    ensures Lower(s) == s
  {
    forall i | 0 <= i < |s|
      ensures LowerChar(s[i]) == s[i]
    {
      assert s[i] in s;
    }
  }

  lemma {:induction false} NamedFirst(headers: seq<HttpHeader>, name: string, i: nat)
    requires FirstNamed(headers, name, i) && Lower(name) == name
    ensures Named(headers, name) == Some(headers[i].val)
    decreases |headers|
  {
    hide Lower;
    if i > 0 {
      assert headers[0] in headers[..i];
      assert headers[..i][1..] == headers[1..][..i - 1];
      NamedFirst(headers[1..], name, i - 1);
    }
  }

  lemma {:induction false} NamedNone(headers: seq<HttpHeader>, name: string)
    requires Unnamed(headers, name) && Lower(name) == name
    ensures Named(headers, name) == None
    decreases |headers|
  {
    hide Lower;
    if headers != [] {
      assert headers[0] in headers;
      NamedNone(headers[1..], name);
    }
  }

  /** The lookup finds the first header of that name, in whatever case it is written. */
  lemma FindsFirst(headers: seq<HttpHeader>, name: string)
    requires Lower(name) == name
    ensures forall i: nat :: FirstNamed(headers, name, i) ==> Named(headers, name) == Some(headers[i].val)
    ensures Unnamed(headers, name) ==> Named(headers, name) == None
  {
    forall i: nat | FirstNamed(headers, name, i)
      ensures Named(headers, name) == Some(headers[i].val)
    {
      NamedFirst(headers, name, i);
    }
    if Unnamed(headers, name) {
      NamedNone(headers, name);
    }
  }

  method FindHeader(headers: seq<HttpHeader>, name: string) returns (val: Option<string>)
    ensures val == Named(headers, name)
    ensures val.Some? ==> exists h :: h in headers && h.val == val.value
  {
    var i := 0;
    while i < |headers|
      invariant i <= |headers| && Named(headers[i..], name) == Named(headers, name)
    {
      assert headers[i..][1..] == headers[i + 1..];
      if Lower(headers[i].key) == Lower(name) {
        assert headers[i] in headers;
        return Some(headers[i].val);
      }
      i := i + 1;
    }
    return None;
  }
}
