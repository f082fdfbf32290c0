/**
  The dynamic value: how it is printed, and a reader that undoes the printing. The order of values
  is the order of their texts, so what the reader can tell apart the order tells apart.
*/
module Values {
  import opened Basics

  /** A double: its bits, and the text a stream prints for it, which this model does not compute. */
  datatype Double = Double(bits: nat, text: string)

  /** A msgpack value. A character stands for a byte. */
  datatype Value =
    | Nil
    | Bool(b: bool)
    | Integer(i: int)
    | Float(f: Double)
    | Str(s: string)
    | Bin(bytes: string)
    | Ext(body: string)
    | Array(items: seq<Value>)
    | Map(pairs: seq<Pair>)

  datatype Pair = Pair(key: Value, val: Value)

  // ---- Printing ----

  function Digit(d: nat): char
    requires d < 10
  {
    "0123456789"[d]
  }

  function Decimal(n: nat): string {
    if n < 10 then [Digit(n)] else Decimal(n / 10) + [Digit(n % 10)]
  }

  const BACKSPACE := 8 as char
  const FORM_FEED := 12 as char
  const NEWLINE := '\n'
  const RETURN := '\r'
  const TAB := '\t'

  function HexDigit(d: nat): char
    requires d < 16
  {
    "0123456789abcdef"[d]
  }

  /** One character of a string; bytes from 0x80 on are negative chars and pass as they are. */
  function Escaped(c: char): string {
    if c == '\\' then "\\\\"
    else if c == '"' then "\\\""
    else if c == '/' then "\\/"
    else if c == BACKSPACE then "\\b"
    else if c == FORM_FEED then "\\f"
    else if c == NEWLINE then "\\n"
    else if c == RETURN then "\\r"
    else if c == TAB then "\\t"
    else if c as int < 0x20 || c as int == 0x7f then "\\u00" + [HexDigit(c as int / 16), HexDigit(c as int % 16)]
    else [c]
  }

  function Escape(s: string): string {
    if s == "" then "" else Escaped(s[0]) + Escape(s[1..])
  }

  function Print(v: Value): string
    decreases v, 0
  {
    match v
    case Nil => "null"
    case Bool(b) => if b then "true" else "false"
    case Integer(i) => if i >= 0 then Decimal(i) else "-" + Decimal(-i)
    case Float(f) => f.text
    case Str(s) => "\"" + Escape(s) + "\""
    case Bin(_) => "[BIN]"
    case Ext(_) => "[EXT]"
    case Array(items) => "[" + (if items == [] then "" else Print(items[0]) + PrintItems(items[1..])) + "]"
    case Map(pairs) =>
      "{" + (if pairs == [] then "" else PrintPair(pairs[0]) + PrintPairs(pairs[1..])) + "}"
  }

  function PrintPair(p: Pair): string
    decreases p, 0
  {
    Print(p.key) + ":" + Print(p.val)
  }

  function PrintItems(items: seq<Value>): string
    decreases items, 1
  {
    if items == [] then "" else ", " + Print(items[0]) + PrintItems(items[1..])
  }

  function PrintPairs(pairs: seq<Pair>): string
    decreases pairs, 1
  {
    if pairs == [] then "" else ", " + PrintPair(pairs[0]) + PrintPairs(pairs[1..])
  }

  /** What a text can tell: the contents of BIN and EXT are not printed. */
  function Erase(v: Value): Value
    decreases v, 0
  {
    match v
    case Bin(_) => Bin("")
    case Ext(_) => Ext("")
    case Array(items) => Array(EraseItems(items))
    case Map(pairs) => Map(ErasePairs(pairs))
    case _ => v
  }

  function EraseItems(items: seq<Value>): seq<Value>
    decreases items, 1
  {
    if items == [] then [] else [Erase(items[0])] + EraseItems(items[1..])
  }

  function ErasePairs(pairs: seq<Pair>): seq<Pair>
    decreases pairs, 1
  {
    if pairs == [] then [] else [ErasePair(pairs[0])] + ErasePairs(pairs[1..])
  }

  function ErasePair(p: Pair): Pair
    decreases p, 0
  {
    Pair(Erase(p.key), Erase(p.val))
  }

  /** No floating point anywhere inside. */
  predicate Floatless(v: Value)
    decreases v, 0
  {
    match v
    case Float(_) => false
    case Array(items) => forall k :: 0 <= k < |items| ==> Floatless(items[k])
    case Map(pairs) => forall k :: 0 <= k < |pairs| ==> FloatlessPair(pairs[k])
    case _ => true
  }

  predicate FloatlessPair(p: Pair)
    decreases p, 0
  {
    Floatless(p.key) && Floatless(p.val)
  }

  /** What is printed as it is: neither a control character nor DEL, nor one of the three that are escaped. */
  lemma EscapedExactly(c: char)
    ensures Escaped(c) == [c] <==> c as int >= 0x20 && c as int != 0x7f && c !in "\"\\/"
    ensures |Escaped(c)| == 2 <==> c in "\"\\/\n\r\t" || c as int == 8 || c as int == 12
    ensures forall x :: x in Escaped(c) ==> x as int >= 0x20 && x as int != 0x7f
  {
  }

  /** So a printed string holds no control character. */
  lemma {:induction false} PrintedPlain(s: string)
    ensures forall x :: x in Escape(s) ==> x as int >= 0x20 && x as int != 0x7f
  {
    if s != "" {
      EscapedExactly(s[0]);
      PrintedPlain(s[1..]);
      hide Escaped;
    }
  }

  // ---- Reading ----

  datatype Parsed<+T> = Parsed(value: T, rest: string)

  predicate IsDigit(c: char) {
    '0' <= c <= '9'
  }

  function ReadNat(s: string, n: nat): (p: Parsed<nat>)
    ensures |p.rest| <= |s|
    decreases |s|
  {
    if s != "" && IsDigit(s[0]) then ReadNat(s[1..], 10 * n + (s[0] as int - '0' as int)) else Parsed(n, s)
  }

  function HexValue(c: char): Option<nat> {
    if '0' <= c <= '9' then Some(c as int - '0' as int)
    else if 'a' <= c <= 'f' then Some(c as int - 'a' as int + 10)
    else None
  }

  /** The character after a backslash that stands for itself or for a control character. */
  function Unescaped(c: char): Option<char> {
    if c == '\\' || c == '"' || c == '/' then Some(c)
    else if c == 'b' then Some(BACKSPACE)
    else if c == 'f' then Some(FORM_FEED)
    else if c == 'n' then Some(NEWLINE)
    else if c == 'r' then Some(RETURN)
    else if c == 't' then Some(TAB)
    else None
  }

  function ReadChar(s: string): (p: Option<Parsed<char>>)
    requires s != ""
    ensures p.Some? ==> |p.value.rest| < |s|
  {
    if s[0] != '\\' then Some(Parsed(s[0], s[1..]))
    else if |s| == 1 then None
    else if s[1] == 'u' then
      if |s| >= 6 && s[2..4] == "00" && HexValue(s[4]).Some? && HexValue(s[5]).Some?
      then Some(Parsed((16 * HexValue(s[4]).value + HexValue(s[5]).value) as char, s[6..]))
      else None
    else if Unescaped(s[1]).Some? then Some(Parsed(Unescaped(s[1]).value, s[2..]))
    else None
  }

  function ReadString(s: string): (p: Option<Parsed<string>>)
    ensures p.Some? ==> |p.value.rest| < |s|
    decreases |s|
  {
    if s == "" then None
    else if s[0] == '"' then Some(Parsed("", s[1..]))
    else
      var c := ReadChar(s);
      if c.None? then None
      else
        var p := ReadString(c.value.rest);
        if p.None? then None else Some(Parsed([c.value.value] + p.value.value, p.value.rest))
  }

  predicate StartsWith(s: string, p: string) {
    |p| <= |s| && s[..|p|] == p
  }

  function Read(s: string): (p: Option<Parsed<Value>>)
    ensures p.Some? ==> |p.value.rest| < |s|
    decreases |s|, 0
  {
    if s == "" then None
    else if IsDigit(s[0]) then
      var p := ReadNat(s[1..], s[0] as int - '0' as int);
      Some(Parsed(Integer(p.value), p.rest))
    else if s[0] == '-' then
      var p := ReadNat(s[1..], 0);
      var n: int := p.value;
      Some(Parsed(Integer(-n), p.rest))
    else if s[0] == '"' then
      var p := ReadString(s[1..]);
      if p.None? then None else Some(Parsed(Str(p.value.value), p.value.rest))
    else if StartsWith(s, "null") then Some(Parsed(Nil, s[4..]))
    else if StartsWith(s, "true") then Some(Parsed(Bool(true), s[4..]))
    else if StartsWith(s, "false") then Some(Parsed(Bool(false), s[5..]))
    else if StartsWith(s, "[BIN]") then Some(Parsed(Bin(""), s[5..]))
    else if StartsWith(s, "[EXT]") then Some(Parsed(Ext(""), s[5..]))
    else if StartsWith(s, "[]") then Some(Parsed(Array([]), s[2..]))
    else if StartsWith(s, "{}") then Some(Parsed(Map([]), s[2..]))
    else if s[0] == '[' then
      var p := ReadItems(s[1..]);
      if p.None? then None else Some(Parsed(Array(p.value.value), p.value.rest))
    else if s[0] == '{' then
      var p := ReadPairs(s[1..]);
      if p.None? then None else Some(Parsed(Map(p.value.value), p.value.rest))
    else None
  }

  /** One item and those after it, up to the closing bracket. */
  function ReadItems(s: string): (p: Option<Parsed<seq<Value>>>)
    ensures p.Some? ==> |p.value.rest| < |s|
    decreases |s|, 1
  {
    var first := Read(s);
    if first.None? then None
    else if StartsWith(first.value.rest, "]") then Some(Parsed([first.value.value], first.value.rest[1..]))
    else if !StartsWith(first.value.rest, ", ") then None
    else
      var p := ReadItems(first.value.rest[2..]);
      if p.None? then None else Some(Parsed([first.value.value] + p.value.value, p.value.rest))
  }

  function ReadPair(s: string): (p: Option<Parsed<Pair>>)
    ensures p.Some? ==> |p.value.rest| < |s|
    decreases |s|, 1
  {
    var key := Read(s);
    if key.None? || !StartsWith(key.value.rest, ":") then None
    else
      var val := Read(key.value.rest[1..]);
      if val.None? then None else Some(Parsed(Pair(key.value.value, val.value.value), val.value.rest))
  }

  function ReadPairs(s: string): (p: Option<Parsed<seq<Pair>>>)
    ensures p.Some? ==> |p.value.rest| < |s|
    decreases |s|, 2
  {
    var first := ReadPair(s);
    if first.None? then None
    else if StartsWith(first.value.rest, "}") then Some(Parsed([first.value.value], first.value.rest[1..]))
    else if !StartsWith(first.value.rest, ", ") then None
    else
      var p := ReadPairs(first.value.rest[2..]);
      if p.None? then None else Some(Parsed([first.value.value] + p.value.value, p.value.rest))
  }

  // ---- The reader undoes the printer ----

  /** What can follow a value inside a text. */
  predicate Follows(rest: string) {
    rest == "" || rest[0] == ',' || rest[0] == ']' || rest[0] == ':' || rest[0] == '}'
  }

  lemma ReadDigit(d: nat, n: nat, rest: string)
    requires d < 10
    ensures ReadNat([Digit(d)] + rest, n) == ReadNat(rest, 10 * n + d)
  {
    assert ([Digit(d)] + rest)[1..] == rest;
  }

  lemma {:induction false} ReadDecimal(n: nat, rest: string)
    ensures Decimal(n) != "" && IsDigit(Decimal(n)[0])
    ensures ReadNat(Decimal(n) + rest, 0) == ReadNat(rest, n)
    decreases n
  {
    if n < 10 {
      hide ReadNat;
      ReadDigit(n, 0, rest);
    } else {
      hide ReadNat;
      var d := [Digit(n % 10)];
      ReadDecimal(n / 10, d + rest);
      ReadDigit(n % 10, n / 10, rest);
      assert Decimal(n) + rest == Decimal(n / 10) + (d + rest);
    }
  }

  lemma ReadEscaped(c: char, rest: string)
    ensures Escaped(c) != "" && Escaped(c)[0] != '"'
    ensures ReadChar(Escaped(c) + rest) == Some(Parsed(c, rest))
  {
    var s := Escaped(c) + rest;
    if |Escaped(c)| == 1 {
      assert s[1..] == rest;
    } else if |Escaped(c)| == 2 {
      assert s[2..] == rest;
    } else {
      assert s[2..4] == "00" && s[6..] == rest;
      assert HexValue(HexDigit(c as int / 16)) == Some(c as int / 16);
      assert HexValue(HexDigit(c as int % 16)) == Some(c as int % 16);
    }
  }

  lemma {:induction false} ReadEscape(s: string, rest: string)
    ensures ReadString(Escape(s) + "\"" + rest) == Some(Parsed(s, rest))
    decreases |s|
  {
    var text := Escape(s) + "\"" + rest;
    if s == "" {
      assert text[1..] == rest;
    } else {
      var tail := Escape(s[1..]) + "\"" + rest;
      assert text == Escaped(s[0]) + tail;
      ReadEscaped(s[0], tail);
      ReadEscape(s[1..], rest);
      assert text[0] == Escaped(s[0])[0];
      assert [s[0]] + s[1..] == s;
    }
  }

  lemma ReadPositive(n: nat, rest: string)
    requires Follows(rest)
    ensures Read(Decimal(n) + rest) == Some(Parsed(Integer(n), rest))
  {
    var text := Decimal(n) + rest;
    ReadDecimal(n, rest);
    assert text[0] == Decimal(n)[0];
    hide Decimal;
    assert ReadNat(text, 0) == ReadNat(text[1..], text[0] as int - '0' as int);
    assert ReadNat(rest, n) == Parsed(n, rest);
    hide ReadNat;
  }

  lemma ReadNegative(n: nat, rest: string)
    requires Follows(rest)
    ensures Read("-" + Decimal(n) + rest) == Some(Parsed(Integer(0 - n), rest))
  {
    var text := "-" + Decimal(n) + rest;
    ReadDecimal(n, rest);
    hide Decimal;
    assert text[1..] == Decimal(n) + rest;
    assert ReadNat(rest, n) == Parsed(n, rest);
    hide ReadNat;
  }

  lemma ReadInteger(i: int, rest: string)
    requires Follows(rest)
    ensures Read(Print(Integer(i)) + rest) == Some(Parsed(Integer(i), rest))
  {
    hide Read, Decimal;
    if i >= 0 {
      ReadPositive(i, rest);
    } else {
      ReadNegative(-i, rest);
    }
  }

  lemma ReadWord(v: Value, rest: string)
    requires v.Nil? || v.Bool? || v.Bin? || v.Ext?
    ensures Read(Print(v) + rest) == Some(Parsed(Erase(v), rest))
  {
    var text := Print(v) + rest;
    assert text[..|Print(v)|] == Print(v) && text[|Print(v)|..] == rest;
    assert text[..4] == Print(v)[..4];
  }

  lemma ReadStr(s: string, rest: string)
    ensures Read(Print(Str(s)) + rest) == Some(Parsed(Str(s), rest))
  {
    ReadEscape(s, rest);
    var text := Print(Str(s)) + rest;
    hide Escape, ReadString;
    assert text[0] == '"' && text[1..] == Escape(s) + "\"" + rest;
    hide Print;
  }

  predicate Opens(c: char) {
    IsDigit(c) || c == '-' || c == '"' || c == 'n' || c == 't' || c == 'f' || c == '[' || c == '{'
  }

  lemma PrintOpens(v: Value)
    requires !v.Float?
    ensures Print(v) != "" && Opens(Print(v)[0])
  {
    if v.Integer? {
      ReadDecimal(if v.i >= 0 then v.i else -v.i, "");
    }
  }

  /** The text of the items after the opening bracket. */
  function ItemsText(items: seq<Value>): string
    requires items != []
  {
    Print(items[0]) + PrintItems(items[1..])
  }

  lemma ItemsTail(items: seq<Value>, rest: string)
    requires items != []
    ensures ItemsText(items) + "]" + rest == Print(items[0]) + (PrintItems(items[1..]) + "]" + rest)
    ensures Follows(PrintItems(items[1..]) + "]" + rest)
    ensures |items| == 1 ==> PrintItems(items[1..]) + "]" + rest == "]" + rest
    ensures |items| > 1 ==> PrintItems(items[1..]) + "]" + rest == ", " + (ItemsText(items[1..]) + "]" + rest)
  {
    if |items| > 1 {
      assert items[1..][1..] == items[2..];
      assert PrintItems(items[1..]) == ", " + Print(items[1]) + PrintItems(items[2..]);
    }
  }

  lemma OneItemRead(s: string, v: Value, rest: string)
    requires Read(s) == Some(Parsed(v, "]" + rest))
    ensures ReadItems(s) == Some(Parsed([v], rest))
  {
    hide Read;
    assert ("]" + rest)[..1] == "]" && ("]" + rest)[1..] == rest;
  }

  lemma MoreItemsRead(s: string, v: Value, tail: string, items: seq<Value>, rest: string)
    requires Read(s) == Some(Parsed(v, ", " + tail)) && ReadItems(tail) == Some(Parsed(items, rest))
    ensures ReadItems(s) == Some(Parsed([v] + items, rest))
  {
    hide Read;
    assert (", " + tail)[..2] == ", " && (", " + tail)[2..] == tail;
    NotWord(", " + tail, "]", 0);
  }

  lemma EraseItemsHead(items: seq<Value>)
    requires items != []
    ensures EraseItems(items) == [Erase(items[0])] + EraseItems(items[1..])
    ensures |items| == 1 ==> EraseItems(items) == [Erase(items[0])]
  {
  }

  lemma {:induction false} ReadItemsPrint(items: seq<Value>, rest: string)
    requires items != [] && forall k :: 0 <= k < |items| ==> Floatless(items[k])
    ensures ReadItems(ItemsText(items) + "]" + rest) == Some(Parsed(EraseItems(items), rest))
    decreases items, 1
  {
    var text := ItemsText(items) + "]" + rest;
    ItemsTail(items, rest);
    ReadPrint(items[0], PrintItems(items[1..]) + "]" + rest);
    EraseItemsHead(items);
    hide Print, PrintItems, Read, ReadItems, Follows, Erase, EraseItems, ItemsText;
    if |items| == 1 {
      OneItemRead(text, Erase(items[0]), rest);
    } else {
      ReadItemsPrint(items[1..], rest);
      MoreItemsRead(text, Erase(items[0]), ItemsText(items[1..]) + "]" + rest, EraseItems(items[1..]), rest);
    }
  }

  lemma NotWord(text: string, word: string, i: nat)
    requires i < |word| && i < |text| && text[i] != word[i]
    ensures !StartsWith(text, word)
  {
    if |word| <= |text| {
      assert text[..|word|][i] == text[i];
    }
  }

  lemma NoWords(text: string)
    requires |text| >= 2 && (text[0] == '[' || text[0] == '{') && text[1] != 'B' && text[1] != 'E'
    ensures !StartsWith(text, "null") && !StartsWith(text, "true") && !StartsWith(text, "false")
    ensures !StartsWith(text, "[BIN]") && !StartsWith(text, "[EXT]")
    ensures StartsWith(text, "[]") <==> text[0] == '[' && text[1] == ']'
    ensures StartsWith(text, "{}") <==> text[0] == '{' && text[1] == '}'
  {
    NotWord(text, "null", 0);
    NotWord(text, "true", 0);
    NotWord(text, "false", 0);
    NotWord(text, "[BIN]", 1);
    NotWord(text, "[EXT]", 1);
  }

  /** The bracket of a list that is not empty is not taken for a word. */
  lemma ReadBracket(text: string)
    requires |text| >= 2 && Opens(text[1]) && text[0] == '[' && ReadItems(text[1..]).Some?
    ensures Read(text) == Some(Parsed(Array(ReadItems(text[1..]).value.value), ReadItems(text[1..]).value.rest))
  {
    NoWords(text);
    hide ReadItems, ReadPairs, StartsWith;
  }

  lemma ReadBrace(text: string)
    requires |text| >= 2 && Opens(text[1]) && text[0] == '{' && ReadPairs(text[1..]).Some?
    ensures Read(text) == Some(Parsed(Map(ReadPairs(text[1..]).value.value), ReadPairs(text[1..]).value.rest))
  {
    NoWords(text);
    hide ReadItems, ReadPairs, StartsWith;
  }

  lemma ReadArray(items: seq<Value>, rest: string)
    requires items != [] && !items[0].Float?
    requires ReadItems(ItemsText(items) + "]" + rest) == Some(Parsed(EraseItems(items), rest))
    ensures Read(Print(Array(items)) + rest) == Some(Parsed(Array(EraseItems(items)), rest))
  {
    ArrayReads(items, rest);
    hide Print, Read, ReadItems, ReadPairs, ItemsText, EraseItems;
    ReadBracket(Print(Array(items)) + rest);
  }

  lemma ArrayReads(items: seq<Value>, rest: string)
    requires items != [] && !items[0].Float?
    ensures var text := Print(Array(items)) + rest;
            && |text| >= 2 && text[0] == '[' && Opens(text[1]) && text[1..] == ItemsText(items) + "]" + rest
  {
    var body := ItemsText(items) + "]" + rest;
    assert Print(Array(items)) + rest == "[" + body;
    PrintOpens(items[0]);
    assert body[0] == Print(items[0])[0];
    hide Print;
  }

  function PairsText(pairs: seq<Pair>): string
    requires pairs != []
  {
    PrintPair(pairs[0]) + PrintPairs(pairs[1..])
  }

  lemma PairsTail(pairs: seq<Pair>, rest: string)
    requires pairs != []
    ensures PairsText(pairs) + "}" + rest == PrintPair(pairs[0]) + (PrintPairs(pairs[1..]) + "}" + rest)
    ensures Follows(PrintPairs(pairs[1..]) + "}" + rest)
    ensures |pairs| == 1 ==> PrintPairs(pairs[1..]) + "}" + rest == "}" + rest
    ensures |pairs| > 1 ==> PrintPairs(pairs[1..]) + "}" + rest == ", " + (PairsText(pairs[1..]) + "}" + rest)
  {
    if |pairs| > 1 {
      assert pairs[1..][1..] == pairs[2..];
      assert PrintPairs(pairs[1..]) == ", " + PrintPair(pairs[1]) + PrintPairs(pairs[2..]);
    }
  }

  lemma PairRead(p: Pair, s: string, tail: string, rest: string)
    requires Read(s) == Some(Parsed(Erase(p.key), ":" + tail)) && Read(tail) == Some(Parsed(Erase(p.val), rest))
    ensures ReadPair(s) == Some(Parsed(ErasePair(p), rest))
  {
    hide Read, Erase;
    assert (":" + tail)[..1] == ":" && (":" + tail)[1..] == tail;
  }

  lemma {:induction false} ReadPairPrint(p: Pair, rest: string)
    requires Follows(rest) && FloatlessPair(p)
    ensures ReadPair(PrintPair(p) + rest) == Some(Parsed(ErasePair(p), rest))
    decreases p, 0
  {
    var tail := Print(p.val) + rest;
    assert PrintPair(p) + rest == Print(p.key) + (":" + tail);
    ReadPrint(p.key, ":" + tail);
    ReadPrint(p.val, rest);
    hide Print, PrintPair, Read, Erase, ReadPair;
    PairRead(p, Print(p.key) + (":" + tail), tail, rest);
  }

  lemma OnePairRead(s: string, p: Pair, rest: string)
    requires ReadPair(s) == Some(Parsed(p, "}" + rest))
    ensures ReadPairs(s) == Some(Parsed([p], rest))
  {
    hide ReadPair;
    assert ("}" + rest)[..1] == "}" && ("}" + rest)[1..] == rest;
  }

  lemma MorePairsRead(s: string, p: Pair, tail: string, pairs: seq<Pair>, rest: string)
    requires ReadPair(s) == Some(Parsed(p, ", " + tail)) && ReadPairs(tail) == Some(Parsed(pairs, rest))
    ensures ReadPairs(s) == Some(Parsed([p] + pairs, rest))
  {
    hide ReadPair;
    assert (", " + tail)[..2] == ", " && (", " + tail)[2..] == tail;
    NotWord(", " + tail, "}", 0);
  }

  lemma ErasePairsHead(pairs: seq<Pair>)
    requires pairs != []
    ensures ErasePairs(pairs) == [ErasePair(pairs[0])] + ErasePairs(pairs[1..])
    ensures |pairs| == 1 ==> ErasePairs(pairs) == [ErasePair(pairs[0])]
  {
  }

  lemma {:induction false} ReadPairsPrint(pairs: seq<Pair>, rest: string)
    requires pairs != [] && forall k :: 0 <= k < |pairs| ==> FloatlessPair(pairs[k])
    ensures ReadPairs(PairsText(pairs) + "}" + rest) == Some(Parsed(ErasePairs(pairs), rest))
    decreases pairs, 1
  {
    var text := PairsText(pairs) + "}" + rest;
    PairsTail(pairs, rest);
    ReadPairPrint(pairs[0], PrintPairs(pairs[1..]) + "}" + rest);
    ErasePairsHead(pairs);
    hide PrintPair, PrintPairs, ReadPair, ReadPairs, Follows, ErasePair, ErasePairs, PairsText;
    if |pairs| == 1 {
      OnePairRead(text, ErasePair(pairs[0]), rest);
    } else {
      ReadPairsPrint(pairs[1..], rest);
      MorePairsRead(text, ErasePair(pairs[0]), PairsText(pairs[1..]) + "}" + rest, ErasePairs(pairs[1..]), rest);
    }
  }

  lemma ReadMap(pairs: seq<Pair>, rest: string)
    requires pairs != [] && !pairs[0].key.Float?
    requires ReadPairs(PairsText(pairs) + "}" + rest) == Some(Parsed(ErasePairs(pairs), rest))
    ensures Read(Print(Map(pairs)) + rest) == Some(Parsed(Map(ErasePairs(pairs)), rest))
  {
    var body := PairsText(pairs) + "}" + rest;
    var text := Print(Map(pairs)) + rest;
    assert text == "{" + body;
    PrintOpens(pairs[0].key);
    assert body[0] == Print(pairs[0].key)[0];
    hide Print, PrintPair, Read, ReadItems, ReadPairs, PairsText, ErasePairs;
    assert text[1..] == body;
    ReadBrace(text);
  }

  lemma ReadEmpty(rest: string)
    ensures Read(Print(Array([])) + rest) == Some(Parsed(Array([]), rest))
    ensures Read(Print(Map([])) + rest) == Some(Parsed(Map([]), rest))
  {
    var a, m := "[]" + rest, "{}" + rest;
    NoWords(a);
    NoWords(m);
    assert a[2..] == rest && m[2..] == rest;
    assert Print(Array([])) == "[" + "" + "]" == "[]" && Print(Map([])) == "{" + "" + "}" == "{}";
    hide StartsWith, Print, ReadItems, ReadPairs;
  }

  /** Reading what was printed gives the value, but for the contents of BIN and EXT. */
  lemma {:induction false} ReadPrint(v: Value, rest: string)
    requires Follows(rest) && Floatless(v)
    ensures Read(Print(v) + rest) == Some(Parsed(Erase(v), rest))
    decreases v, 0
  {
    hide Read, ReadItems, ReadPairs, Print, Follows;
    match v
    case Integer(i) => ReadInteger(i, rest);
    case Str(s) => ReadStr(s, rest);
    case Array(items) =>
      if items == [] {
        ReadEmpty(rest);
      } else {
        assert Floatless(items[0]);
        ReadItemsPrint(items, rest);
        ReadArray(items, rest);
      }
    case Map(pairs) =>
      if pairs == [] {
        ReadEmpty(rest);
      } else {
        assert FloatlessPair(pairs[0]);
        ReadPairsPrint(pairs, rest);
        ReadMap(pairs, rest);
      }
    case _ => ReadWord(v, rest);
  }

  // ---- What texts tell apart ----

  lemma {:induction false} PrintErased(v: Value)
    ensures Print(Erase(v)) == Print(v)
    decreases v, 0
  {
    match v
    case Array(items) =>
      if items != [] {
        PrintErased(items[0]);
        PrintItemsErased(items[1..]);
        assert EraseItems(items)[1..] == EraseItems(items[1..]);
      }
    case Map(pairs) =>
      if pairs != [] {
        PrintPairErased(pairs[0]);
        PrintPairsErased(pairs[1..]);
        assert ErasePairs(pairs)[1..] == ErasePairs(pairs[1..]);
      }
    case _ =>
  }

  lemma {:induction false} PrintItemsErased(items: seq<Value>)
    ensures PrintItems(EraseItems(items)) == PrintItems(items)
    decreases items, 1
  {
    if items != [] {
      PrintErased(items[0]);
      PrintItemsErased(items[1..]);
      assert EraseItems(items)[1..] == EraseItems(items[1..]);
    }
  }

  lemma {:induction false} PrintPairErased(p: Pair)
    ensures PrintPair(ErasePair(p)) == PrintPair(p)
    decreases p, 0
  {
    PrintErased(p.key);
    PrintErased(p.val);
  }

  lemma {:induction false} PrintPairsErased(pairs: seq<Pair>)
    ensures PrintPairs(ErasePairs(pairs)) == PrintPairs(pairs)
    decreases pairs, 1
  {
    if pairs != [] {
      PrintPairErased(pairs[0]);
      PrintPairsErased(pairs[1..]);
      assert ErasePairs(pairs)[1..] == ErasePairs(pairs[1..]);
    }
  }

  /** Values without floating point print alike exactly when they differ in the contents of BIN and EXT only. */
  lemma PrintTellsApart(a: Value, b: Value)
    requires Floatless(a) && Floatless(b)
    ensures Print(a) == Print(b) <==> Erase(a) == Erase(b)
  {
    PrintErased(a);
    PrintErased(b);
    ReadPrint(a, "");
    ReadPrint(b, "");
    hide Print, Erase, Read;
    assert Print(a) + "" == Print(a) && Print(b) + "" == Print(b);
  }

  // ---- The order ----

  /** operator< of std::string: bytes compare as unsigned, and a prefix comes first. */
  function Precedes(s: string, t: string): bool {
    if s == "" then t != ""
    else t != "" && (s[0] < t[0] || (s[0] == t[0] && Precedes(s[1..], t[1..])))
  }

  lemma {:induction false} PrecedesTransitive(s: string, t: string, u: string)
    requires Precedes(s, t) && Precedes(t, u)
    ensures Precedes(s, u)
  {
    if s != "" && s[0] == t[0] && t[0] == u[0] {
      PrecedesTransitive(s[1..], t[1..], u[1..]);
    }
  }

  lemma {:induction false} PrecedesTotal(s: string, t: string)
    ensures !(Precedes(s, t) && Precedes(t, s))
    ensures !Precedes(s, t) && !Precedes(t, s) <==> s == t
  {
    if s != "" && t != "" && s[0] == t[0] {
      PrecedesTotal(s[1..], t[1..]);
      assert s == [s[0]] + s[1..] && t == [t[0]] + t[1..];
    }
  }

  /** The first characters that differ, in favour of s. */
  ghost predicate FirstDifference(s: string, t: string, k: nat) {
    k < |s| && k < |t| && s[..k] == t[..k] && s[k] < t[k]
  }

  /** The order of std::string: a proper prefix comes first, and otherwise the first difference decides. */
  lemma {:induction false} PrecedesExactly(s: string, t: string)
    ensures Precedes(s, t) <==> s < t || exists k: nat :: FirstDifference(s, t, k)
  {
    if s != "" && t != "" {
      if s[0] == t[0] {
        PrecedesExactly(s[1..], t[1..]);
        OneOn(s, t);
      } else {
        assert s[0] < t[0] ==> FirstDifference(s, t, 0);
        forall k: nat | FirstDifference(s, t, k)
          ensures s[0] < t[0]
        {
          HeadsDiffer(s, t, k);
        }
      }
    }
  }

  lemma HeadsDiffer(s: string, t: string, k: nat)
    requires FirstDifference(s, t, k)
    ensures s[0] == t[0] || s[0] < t[0]
  {
    if k > 0 {
      assert s[0] == s[..k][0] && t[0] == t[..k][0];
    }
  }

  lemma OneOn(s: string, t: string)
    requires s != "" && t != "" && s[0] == t[0]
    ensures s < t <==> s[1..] < t[1..]
    ensures (exists k: nat :: FirstDifference(s, t, k)) <==> (exists k: nat :: FirstDifference(s[1..], t[1..], k))
  {
    assert s == [s[0]] + s[1..] && t == [t[0]] + t[1..];
    if exists k: nat :: FirstDifference(s, t, k) {
      var k: nat :| FirstDifference(s, t, k);
      assert k > 0;
      assert s[1..][..k - 1] == s[..k][1..] && t[1..][..k - 1] == t[..k][1..];
      assert FirstDifference(s[1..], t[1..], k - 1);
    }
    if exists k: nat :: FirstDifference(s[1..], t[1..], k) {
      var k: nat :| FirstDifference(s[1..], t[1..], k);
      assert s[..k + 1] == [s[0]] + s[1..][..k] && t[..k + 1] == [t[0]] + t[1..][..k];
      assert FirstDifference(s, t, k + 1);
    }
  }

  /** operator< of any. */
  predicate Less(a: Value, b: Value) {
    Precedes(Print(a), Print(b))
  }

  /** No BIN and no EXT with contents, and no floating point, anywhere inside. */
  predicate Textual(v: Value) {
    Erase(v) == v && Floatless(v)
  }

  /** A strict order on all values; total, without floating point, but for the contents of BIN and EXT. */
  lemma OrderOfValues(a: Value, b: Value, c: Value)
    ensures !Less(a, a)
    ensures Less(a, b) && Less(b, c) ==> Less(a, c)
    ensures !(Less(a, b) && Less(b, a))
    ensures !Less(a, b) && !Less(b, a) <==> Print(a) == Print(b)
    ensures Floatless(a) && Floatless(b) ==> (!Less(a, b) && !Less(b, a) <==> Erase(a) == Erase(b))
  {
    hide Print, Erase, Precedes;
    PrecedesTotal(Print(a), Print(a));
    PrecedesTotal(Print(a), Print(b));
    if Floatless(a) && Floatless(b) {
      PrintTellsApart(a, b);
    }
    if Less(a, b) && Less(b, c) {
      PrecedesTransitive(Print(a), Print(b), Print(c));
    }
  }

  /** Among such values the incomparable ones are exactly the equal ones. */
  lemma OrderAgreesWithEquality(a: Value, b: Value)
    requires Textual(a) && Textual(b)
    ensures !Less(a, b) && !Less(b, a) <==> a == b
  {
    OrderOfValues(a, b, b);
  }

  /** With BIN it does not hold: different contents are neither less nor greater. */
  lemma BinariesIncomparable()
    ensures exists a: Value, b :: a != b && !Less(a, b) && !Less(b, a)
  {
    var a, b := Bin("a"), Bin("b");
    OrderOfValues(a, b, b);
    assert a != b;
  }

  /** Nor with floating point: a double that prints as an integer is not told from it. */
  lemma DoubleIncomparable(f: Double)
    requires f.text == "1"
    ensures Float(f) != Integer(1) && !Less(Float(f), Integer(1)) && !Less(Integer(1), Float(f))
  {
    assert Print(Integer(1)) == "1";
    PrecedesTotal("1", "1");
  }

  // ---- operator<<, as it writes ----

  lemma EscapeSnoc(s: string, i: nat)
    requires i < |s|
    ensures Escape(s[..i + 1]) == Escape(s[..i]) + Escaped(s[i])
  {
    if i == 0 {
      assert s[..1][1..] == "";
    } else {
      assert s[..i + 1][1..] == s[1..][..i] && s[..i][1..] == s[1..][..i - 1];
      EscapeSnoc(s[1..], i - 1);
    }
  }

  method WriteString(stream: string, str: string) returns (s: string)
    ensures s == stream + Print(Str(str))
  {
    hide Escaped, Escape;
    s := stream + "\"";
    EscapeEmpty(str[..0]);
    for i := 0 to |str|
      invariant s == stream + ("\"" + Escape(str[..i]))
    {
      EscapeSnoc(str, i);
      s := s + Escaped(str[i]);
    }
    assert str[..|str|] == str;
    s := s + "\"";
  }

  lemma EscapeEmpty(s: string)
    requires s == ""
    ensures Escape(s) == ""
  {
  }

  lemma ArrayText(items: seq<Value>)
    ensures Print(Array(items)) == "[" + (if items == [] then "" else ItemsText(items)) + "]"
  {
  }

  lemma MapText(pairs: seq<Pair>)
    ensures Print(Map(pairs)) == "{" + (if pairs == [] then "" else PairsText(pairs)) + "}"
  {
  }

  method Write(stream: string, v: Value) returns (s: string)
    ensures s == stream + Print(v)
    decreases v, 0
  {
    match v {
      case Nil => s := stream + "null";
      case Bool(b) => s := stream + if b then "true" else "false";
      case Integer(i) => s := stream + if i >= 0 then Decimal(i) else "-" + Decimal(-i);
      case Float(f) => s := stream + f.text;
      case Str(str) => s := WriteString(stream, str);
      case Bin(_) => s := stream + "[BIN]";
      case Ext(_) => s := stream + "[EXT]";
      case Array(items) => s := WriteArray(stream, items);
      case Map(pairs) => s := WriteMap(stream, pairs);
    }
  }

  method WriteArray(stream: string, items: seq<Value>) returns (s: string)
    ensures s == stream + Print(Array(items))
    decreases items, 2
  {
    ArrayText(items);
    hide Print, ItemsText;
    s := stream + "[";
    if |items| != 0 {
      s := WriteItems(s, items);
    }
    s := s + "]";
  }

  method WriteMap(stream: string, pairs: seq<Pair>) returns (s: string)
    ensures s == stream + Print(Map(pairs))
    decreases pairs, 2
  {
    MapText(pairs);
    hide Print, PairsText;
    s := stream + "{";
    if |pairs| != 0 {
      s := WritePairs(s, pairs);
    }
    s := s + "}";
  }

  lemma PrintItemsFrom(items: seq<Value>, p: nat)
    requires p <= |items|
    ensures PrintItems(items[p..]) == if p == |items| then "" else ", " + Print(items[p]) + PrintItems(items[p + 1..])
  {
    if p < |items| {
      assert items[p..][1..] == items[p + 1..];
    }
  }

  lemma Chain(a: string, b: string, c: string, d: string)
    ensures a + (b + c + d) == a + b + c + d
  {
  }

  method WriteItems(stream: string, items: seq<Value>) returns (s: string)
    requires items != []
    ensures s == stream + ItemsText(items)
    decreases items, 1
  {
    s := Write(stream, items[0]);
    WrittenFirst(stream, Print(items[0]), PrintItems(items[1..]));
    ghost var whole := stream + ItemsText(items);
    hide *;
    var p := 1;
    while p < |items|
      invariant 1 <= p <= |items|
      invariant s + PrintItems(items[p..]) == whole
    {
      PrintItemsFrom(items, p);
      Chain(s, ", ", Print(items[p]), PrintItems(items[p + 1..]));
      s := s + ", ";
      s := Write(s, items[p]);
      p := p + 1;
    }
    PrintItemsFrom(items, p);
  }

  lemma WrittenFirst(a: string, b: string, c: string)
    ensures a + b + c == a + (b + c)
  {
  }

  lemma PrintPairsFrom(pairs: seq<Pair>, p: nat)
    requires p <= |pairs|
    ensures PrintPairs(pairs[p..]) == if p == |pairs| then ""
            else ", " + PrintPair(pairs[p]) + PrintPairs(pairs[p + 1..])
  {
    if p < |pairs| {
      assert pairs[p..][1..] == pairs[p + 1..];
    }
  }

  method WritePairs(stream: string, pairs: seq<Pair>) returns (s: string)
    requires pairs != []
    ensures s == stream + PairsText(pairs)
    decreases pairs, 1
  {
    s := WritePair(stream, pairs[0]);
    WrittenFirst(stream, PrintPair(pairs[0]), PrintPairs(pairs[1..]));
    ghost var whole := stream + PairsText(pairs);
    hide *;
    var p := 1;
    while p < |pairs|
      invariant 1 <= p <= |pairs|
      invariant s + PrintPairs(pairs[p..]) == whole
    {
      PrintPairsFrom(pairs, p);
      Chain(s, ", ", PrintPair(pairs[p]), PrintPairs(pairs[p + 1..]));
      s := s + ", ";
      s := WritePair(s, pairs[p]);
      p := p + 1;
    }
    PrintPairsFrom(pairs, p);
  }

  method WritePair(stream: string, p: Pair) returns (s: string)
    ensures s == stream + PrintPair(p)
    decreases p, 0
  {
    s := Write(stream, p.key);
    s := s + ":";
    s := Write(s, p.val);
  }
}
