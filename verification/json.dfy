/** JSON.stringify and JSON.parse on the values a store line holds: no text of an object is a
    proper prefix of another's, and no text holds a newline. Numbers are integers, and the grammar
    is the compact one that stringify writes. */
module Json {
  import opened Types
  import opened Decimal

  datatype Json =
    | JNull
    | JBool(b: bool)
    | JNum(n: int)
    | JStr(s: string)
    | JArr(items: seq<Json>)
    | JObj(fields: seq<Member>)

  datatype Member = Member(name: string, value: Json)

  // ------------------------------------------------------------------ stringify

  function Hex(d: nat): char
    requires d < 16
  {
    if d < 10 then Digit(d) else ('a' as int + d - 10) as char
  }

  function Escape(c: char): (e: string)
    ensures |e| > 0
  {
    if c == '"' then "\\\"" else if c == '\\' then "\\\\"
    else if c == '\n' then "\\n" else if c == '\r' then "\\r" else if c == '\t' then "\\t"
    else if c as int == 8 then "\\b" else if c as int == 12 then "\\f"
    else if c < ' ' then "\\u00" + [Hex(c as int / 16), Hex(c as int % 16)]
    else [c]
  }

  function Escaped(s: string): string { if s == "" then "" else Escape(s[0]) + Escaped(s[1..]) }

  function Quoted(s: string): string { "\"" + Escaped(s) + "\"" }

  function Text(v: Json): string
    decreases v, 0
  {
    match v
    case JNull => "null"
    case JBool(b) => if b then "true" else "false"
    case JNum(n) => Print(n)
    case JStr(s) => Quoted(s)
    case JArr(items) => "[" + ItemsText(items) + "]"
    case JObj(fields) => "{" + FieldsText(fields) + "}"
  }

  function ItemsText(items: seq<Json>): string
    decreases items, 1
  {
    if items == [] then ""
    else if |items| == 1 then Text(items[0])
    else Text(items[0]) + "," + ItemsText(items[1..])
  }

  function FieldsText(fields: seq<Member>): string
    decreases fields, 1
  {
    if fields == [] then ""
    else
      var head := Quoted(fields[0].name) + ":" + Text(fields[0].value);
      if |fields| == 1 then head else head + "," + FieldsText(fields[1..])
  }

  // ------------------------------------------------------------------ parse

  function FromHex(c: char): Option<nat> {
    if IsDigit(c) then Some(DigitValue(c)) else if 'a' <= c <= 'f' then Some(c as int - 'a' as int + 10) else None
  }

  /** One character of a string literal and how much text it takes; None at the end or on bad input. */
  function Unescape(s: string): (r: Option<(char, nat)>)
    ensures r.Some? ==> 0 < r.value.1 <= |s|
  {
    if s == "" || s[0] == '"' || s[0] < ' ' then None
    else if s[0] != '\\' then Some((s[0], 1))
    else if |s| < 2 then None
    else if s[1] == '"' then Some(('"', 2)) else if s[1] == '\\' then Some(('\\', 2))
    else if s[1] == 'n' then Some(('\n', 2)) else if s[1] == 'r' then Some(('\r', 2)) else if s[1] == 't' then Some(('\t', 2))
    else if s[1] == 'b' then Some((8 as char, 2)) else if s[1] == 'f' then Some((12 as char, 2))
    else if s[1] == 'u' && |s| >= 6 && s[2] == '0' && s[3] == '0' then
      match (FromHex(s[4]), FromHex(s[5]))
      case (Some(hi), Some(lo)) => Some(((hi * 16 + lo) as char, 6))
      case _ => None
    else None
  }

  /** The rest of a string literal, after its opening quote. */
  function ParseString(s: string): (r: Option<(string, string)>)
    ensures r.Some? ==> |r.value.1| < |s|
  {
    if s == "" then None
    else if s[0] == '"' then Some(("", s[1..]))
    else
      match Unescape(s)
      case None => None
      case Some((c, k)) =>
        match ParseString(s[k..])
        case None => None
        case Some((tail, rest)) => Some(([c] + tail, rest))
  }

  function DigitsIn(s: string): (k: nat)
    ensures k <= |s| && AllDigits(s[..k]) && (k < |s| ==> !IsDigit(s[k]))
  {
    if s == "" || !IsDigit(s[0]) then 0
    else
      var k := DigitsIn(s[1..]);
      assert s[..k + 1] == [s[0]] + s[1..][..k];
      k + 1
  }

  function ParseNumber(s: string): (r: Option<(Json, string)>)
    ensures r.Some? ==> |r.value.1| < |s| && r.value.0.JNum?
  {
    var sign := if s != "" && s[0] == '-' then 1 else 0;
    var k := sign + DigitsIn(s[sign..]);
    match Read(s[..k])
    case Some(n) => Some((JNum(n), s[k..]))
    case None => None
  }

  predicate Starts(s: string, word: string) { word <= s }

  function ParseValue(s: string): (r: Option<(Json, string)>)
    ensures r.Some? ==> |r.value.1| < |s|
    decreases |s|, 0
  {
    if Starts(s, "null") then Some((JNull, s[4..]))
    else if Starts(s, "true") then Some((JBool(true), s[4..]))
    else if Starts(s, "false") then Some((JBool(false), s[5..]))
    else if s != "" && s[0] == '"' then
      match ParseString(s[1..])
      case Some((t, rest)) => Some((JStr(t), rest))
      case None => None
    else if Starts(s, "[]") then Some((JArr([]), s[2..]))
    else if s != "" && s[0] == '[' then
      match ParseItems(s[1..])
      case Some((items, rest)) => Some((JArr(items), rest))
      case None => None
    else if Starts(s, "{}") then Some((JObj([]), s[2..]))
    else if s != "" && s[0] == '{' then
      match ParseFields(s[1..])
      case Some((fields, rest)) => Some((JObj(fields), rest))
      case None => None
    else ParseNumber(s)
  }

  /** At least one item, up to the closing bracket. */
  function ParseItems(s: string): (r: Option<(seq<Json>, string)>)
    ensures r.Some? ==> |r.value.1| < |s|
    decreases |s|, 1
  {
    match ParseValue(s)
    case None => None
    case Some((v, rest)) =>
      if rest != "" && rest[0] == ']' then Some(([v], rest[1..]))
      else if rest != "" && rest[0] == ',' then
        match ParseItems(rest[1..])
        case Some((vs, tail)) => Some(([v] + vs, tail))
        case None => None
      else None
  }

  function ParseFields(s: string): (r: Option<(seq<Member>, string)>)
    ensures r.Some? ==> |r.value.1| < |s|
    decreases |s|, 1
  {
    if s == "" || s[0] != '"' then None
    else
      match ParseString(s[1..])
      case None => None
      case Some((name, more)) =>
        if more == "" || more[0] != ':' then None
        else
          match ParseValue(more[1..])
          case None => None
          case Some((v, rest)) =>
            if rest != "" && rest[0] == '}' then Some(([Member(name, v)], rest[1..]))
            else if rest != "" && rest[0] == ',' then
              match ParseFields(rest[1..])
              case Some((fs, tail)) => Some(([Member(name, v)] + fs, tail))
              case None => None
            else None
  }

  /** JSON.parse: the whole text is one value. */
  function Parse(s: string): Option<Json> {
    match ParseValue(s)
    case Some((v, rest)) => if rest == "" then Some(v) else None
    case None => None
  }

  // ------------------------------------------------------------------ parse undoes stringify

  lemma UnescapeEscape(c: char, rest: string)
    ensures Unescape(Escape(c) + rest) == Some((c, |Escape(c)|)) && (Escape(c) + rest)[|Escape(c)|..] == rest
    ensures Escape(c)[0] != '"'
  {
  }

  lemma {:induction false} ParseQuoted(t: string, rest: string)
    ensures ParseString(Escaped(t) + "\"" + rest) == Some((t, rest))
  {
    if t == "" {
      assert Escaped(t) + "\"" + rest == "\"" + rest;
    } else {
      var more := Escaped(t[1..]) + "\"" + rest;
      UnescapeEscape(t[0], more);
      assert Escaped(t) + "\"" + rest == Escape(t[0]) + more;
      ParseQuoted(t[1..], rest);
      assert [t[0]] + t[1..] == t;
    }
  }

  lemma {:induction false} DigitsStop(d: string, rest: string)
    requires AllDigits(d) && (rest == "" || !IsDigit(rest[0]))
    ensures DigitsIn(d + rest) == |d|
  {
    if d != "" {
      assert (d + rest)[1..] == d[1..] + rest;
      DigitsStop(d[1..], rest);
    } else {
      assert d + rest == rest;
    }
  }

  lemma ParsePrinted(n: int, rest: string)
    requires rest == "" || !IsDigit(rest[0])
    ensures ParseNumber(Print(n) + rest) == Some((JNum(n), rest))
    ensures Print(n) != "" && (IsDigit(Print(n)[0]) || Print(n)[0] == '-')
  {
    var p, s := Print(n), Print(n) + rest;
    var sign := if n < 0 then 1 else 0;
    var d := p[sign..];
    assert AllDigits(d) && |d| > 0 by { if n < 0 { assert d == Digits(-n); } else { assert d == Digits(n); } }
    assert s[sign..] == d + rest;
    assert n >= 0 ==> IsDigit(p[0]);
    DigitsStop(d, rest);
    assert s[..|p|] == p && s[|p|..] == rest;
    ReadPrint(n);
  }

  lemma CharOf(s: string, word: string, i: nat)
    requires i < |s| && i < |word|
    ensures Starts(s, word) ==> s[i] == word[i]
  {
  }

  /** The first character tells which kind of value follows. */
  lemma Dispatch(s: string)
    requires s != ""
    ensures IsDigit(s[0]) || s[0] == '-' ==> ParseValue(s) == ParseNumber(s)
    ensures Starts(s, "null") ==> ParseValue(s) == Some((JNull, s[4..]))
    ensures Starts(s, "true") ==> ParseValue(s) == Some((JBool(true), s[4..]))
    ensures Starts(s, "false") ==> ParseValue(s) == Some((JBool(false), s[5..]))
    ensures s[0] == '"' ==> ParseValue(s) == match ParseString(s[1..]) case Some((t, rest)) => Some((JStr(t), rest)) case None => None
  {
    hide ParseNumber, ParseString, ParseItems, ParseFields;
    CharOf(s, "null", 0);
    CharOf(s, "true", 0);
    CharOf(s, "false", 0);
    CharOf(s, "[]", 0);
    CharOf(s, "{}", 0);
  }

  lemma DispatchArray(s: string)
    requires s != "" && s[0] == '['
    ensures Starts(s, "[]") ==> ParseValue(s) == Some((JArr([]), s[2..]))
    ensures |s| > 1 && s[1] != ']' ==>
              ParseValue(s) == match ParseItems(s[1..]) case Some((items, rest)) => Some((JArr(items), rest)) case None => None
  {
    hide ParseNumber, ParseString, ParseItems, ParseFields;
    CharOf(s, "null", 0);
    CharOf(s, "true", 0);
    CharOf(s, "false", 0);
    if |s| > 1 { CharOf(s, "[]", 1); }
  }

  lemma DispatchObject(s: string)
    requires s != "" && s[0] == '{'
    ensures Starts(s, "{}") ==> ParseValue(s) == Some((JObj([]), s[2..]))
    ensures !Starts(s, "{}") ==>
              ParseValue(s) == match ParseFields(s[1..]) case Some((fields, rest)) => Some((JObj(fields), rest)) case None => None
  {
    hide ParseNumber, ParseString, ParseItems, ParseFields;
    CharOf(s, "null", 0);
    CharOf(s, "true", 0);
    CharOf(s, "false", 0);
    CharOf(s, "[]", 0);
  }

  lemma Split(word: string, rest: string)
    ensures Starts(word + rest, word) && (word + rest)[|word|..] == rest
  {
  }

  lemma {:induction false} ParseText(v: Json, rest: string)
    requires v.JNum? ==> rest == "" || !IsDigit(rest[0])
    ensures ParseValue(Text(v) + rest) == Some((v, rest))
    decreases v, 0
  {
    var s := Text(v) + rest;
    hide ParseValue, ParseNumber, ParseString, ParseItems, ParseFields;
    match v
    case JNull => Split("null", rest); Dispatch(s);
    case JBool(b) => Split(if b then "true" else "false", rest); Dispatch(s);
    case JNum(n) => ParsePrinted(n, rest); Dispatch(s);
    case JStr(t) =>
      assert s == "\"" + (Escaped(t) + "\"" + rest);
      assert s[1..] == Escaped(t) + "\"" + rest;
      ParseQuoted(t, rest);
      Dispatch(s);
    case JArr(items) => ParseArray(items, rest);
    case JObj(fields) => ParseObject(fields, rest);
  }

  lemma {:induction false} ParseObject(fields: seq<Member>, rest: string)
    ensures ParseValue(Text(JObj(fields)) + rest) == Some((JObj(fields), rest))
    decreases fields, 2
  {
    var s := Text(JObj(fields)) + rest;
    hide ParseValue, ParseNumber, ParseString, ParseItems, ParseFields;
    if fields == [] {
      assert Text(JObj([])) == "{}";
      Split("{}", rest);
    } else {
      ParseFieldsText(fields, rest);
      assert s[1..] == FieldsText(fields) + "}" + rest;
      FirstOfFields(fields);
      CharOf(s, "{}", 1);
    }
    DispatchObject(s);
  }

  lemma {:induction false} ParseArray(items: seq<Json>, rest: string)
    ensures ParseValue(Text(JArr(items)) + rest) == Some((JArr(items), rest))
    decreases items, 2
  {
    var s := Text(JArr(items)) + rest;
    hide ParseValue, ParseNumber, ParseString, ParseItems, ParseFields;
    if items == [] {
      assert Text(JArr([])) == "[]";
      Split("[]", rest);
    } else {
      ParseItemsText(items, rest);
      assert s[1..] == ItemsText(items) + "]" + rest;
      FirstOfItems(items);
    }
    DispatchArray(s);
  }

  lemma FirstOfText(v: Json)
    ensures Text(v) != "" && Text(v)[0] != ']'
  {
    if v.JNum? { assert v.n >= 0 ==> IsDigit(Digits(v.n)[0]); }
  }

  lemma FirstOfItems(items: seq<Json>)
    requires items != []
    ensures ItemsText(items) != "" && ItemsText(items)[0] != ']'
  {
    FirstOfText(items[0]);
  }

  lemma FirstOfFields(fields: seq<Member>)
    requires fields != []
    ensures FieldsText(fields) != "" && FieldsText(fields)[0] == '"'
  {
    assert Quoted(fields[0].name)[0] == '"';
  }

  lemma ItemsEnd(s: string, v: Json, rest: string)
    requires ParseValue(s) == Some((v, "]" + rest))
    ensures ParseItems(s) == Some(([v], rest))
  {
    hide ParseValue;
    assert ("]" + rest)[1..] == rest;
  }

  lemma ItemsNext(s: string, v: Json, more: string, vs: seq<Json>, rest: string)
    requires ParseValue(s) == Some((v, "," + more)) && ParseItems(more) == Some((vs, rest))
    ensures ParseItems(s) == Some(([v] + vs, rest))
  {
    hide ParseValue;
    assert ("," + more)[1..] == more;
  }

  lemma ItemsShape(items: seq<Json>, rest: string)
    requires items != []
    ensures ItemsText(items) + "]" + rest
         == Text(items[0]) + if |items| == 1 then "]" + rest else "," + (ItemsText(items[1..]) + "]" + rest)
  {
    hide Text;
    if |items| == 1 {
      Listed(Text(items[0]), "]", rest);
    } else {
      var head, more := Text(items[0]), ItemsText(items[1..]);
      assert ItemsText(items) == head + "," + more;
      hide ItemsText;
      Comma(head, more, rest);
    }
  }

  lemma Comma(head: string, more: string, rest: string)
    ensures head + "," + more + "]" + rest == head + ("," + (more + "]" + rest))
  {
  }

  /** What may follow a number inside a list or an object. */
  lemma NoDigitAt(rest: string)
    ensures !IsDigit(("]" + rest)[0]) && !IsDigit(("," + rest)[0]) && !IsDigit(("}" + rest)[0])
  {
  }

  lemma {:induction false} ParseItemsText(items: seq<Json>, rest: string)
    requires items != []
    ensures ParseItems(ItemsText(items) + "]" + rest) == Some((items, rest))
    decreases items, 1
  {
    hide *;
    ItemsShape(items, rest);
    var s := ItemsText(items) + "]" + rest;
    if |items| == 1 {
      NoDigitAt(rest);
      ParseText(items[0], "]" + rest);
      ItemsEnd(s, items[0], rest);
      assert [items[0]] == items;
    } else {
      var more := ItemsText(items[1..]) + "]" + rest;
      NoDigitAt(more);
      ParseText(items[0], "," + more);
      ParseItemsText(items[1..], rest);
      ItemsNext(s, items[0], more, items[1..], rest);
      assert [items[0]] + items[1..] == items;
    }
  }

  /** Concatenation, bracketed either way. */
  lemma Listed(head: string, more: string, rest: string)
    ensures head + (more + rest) == head + more + rest
  {
  }

  lemma FieldsEnd(s: string, name: string, more: string, v: Json, rest: string)
    requires s != "" && s[0] == '"' && ParseString(s[1..]) == Some((name, ":" + more)) && ParseValue(more) == Some((v, "}" + rest))
    ensures ParseFields(s) == Some(([Member(name, v)], rest))
  {
    hide ParseValue, ParseString;
    assert (":" + more)[1..] == more && ("}" + rest)[1..] == rest;
  }

  lemma FieldsNext(s: string, name: string, more: string, v: Json, left: string, fs: seq<Member>, rest: string)
    requires s != "" && s[0] == '"' && ParseString(s[1..]) == Some((name, ":" + more)) && ParseValue(more) == Some((v, "," + left))
    requires ParseFields(left) == Some((fs, rest))
    ensures ParseFields(s) == Some(([Member(name, v)] + fs, rest))
  {
    hide ParseValue, ParseString;
    assert (":" + more)[1..] == more && ("," + left)[1..] == left;
  }

  lemma {:induction false} ParseFieldsText(fields: seq<Member>, rest: string)
    requires fields != []
    ensures ParseFields(FieldsText(fields) + "}" + rest) == Some((fields, rest))
    decreases fields, 1
  {
    hide *;
    var name, v := fields[0].name, fields[0].value;
    var s := FieldsText(fields) + "}" + rest;
    if |fields| == 1 {
      FieldsStart(fields, rest, "}" + rest);
      ParseQuoted(name, ":" + (Text(v) + ("}" + rest)));
      NoDigitAt(rest);
      ParseText(v, "}" + rest);
      FieldsEnd(s, name, Text(v) + ("}" + rest), v, rest);
      assert [Member(name, v)] == fields;
    } else {
      var left := FieldsText(fields[1..]) + "}" + rest;
      FieldsStart(fields, rest, "," + left);
      ParseQuoted(name, ":" + (Text(v) + ("," + left)));
      NoDigitAt(left);
      ParseText(v, "," + left);
      ParseFieldsText(fields[1..], rest);
      FieldsNext(s, name, Text(v) + ("," + left), v, left, fields[1..], rest);
      assert [Member(name, v)] + fields[1..] == fields;
    }
  }

  lemma FieldsStart(fields: seq<Member>, rest: string, tail: string)
    requires fields != [] && tail == if |fields| == 1 then "}" + rest else "," + (FieldsText(fields[1..]) + "}" + rest)
    ensures var s := FieldsText(fields) + "}" + rest;
            s[0] == '"' && s[1..] == Escaped(fields[0].name) + "\"" + (":" + (Text(fields[0].value) + tail))
  {
    hide *;
    var more := if |fields| == 1 then "" else "," + FieldsText(fields[1..]);
    FieldsShape(fields, more);
    TailShape(fields, more, rest);
    MemberShape(FieldsText(fields), Escaped(fields[0].name), Text(fields[0].value), more, rest, tail);
  }

  lemma TailShape(fields: seq<Member>, more: string, rest: string)
    requires fields != [] && more == if |fields| == 1 then "" else "," + FieldsText(fields[1..])
    ensures more + "}" + rest == if |fields| == 1 then "}" + rest else "," + (FieldsText(fields[1..]) + "}" + rest)
  {
    hide FieldsText;
  }

  lemma FieldsShape(fields: seq<Member>, more: string)
    requires fields != [] && more == if |fields| == 1 then "" else "," + FieldsText(fields[1..])
    ensures FieldsText(fields) == "\"" + Escaped(fields[0].name) + "\"" + ":" + Text(fields[0].value) + more
  {
    hide Escaped, Text;
    var head := Quoted(fields[0].name) + ":" + Text(fields[0].value);
    if |fields| > 1 { Listed(head, ",", FieldsText(fields[1..])); }
  }

  lemma MemberShape(t: string, e: string, x: string, more: string, rest: string, tail: string)
    requires t == "\"" + e + "\"" + ":" + x + more && tail == more + "}" + rest
    ensures var s := t + "}" + rest;
            s[0] == '"' && s[1..] == e + "\"" + (":" + (x + tail))
  {
    assert t + "}" + rest == "\"" + (e + "\"" + (":" + (x + tail)));
  }

  /** JSON.parse(JSON.stringify(v)) is v. */
  lemma ParseStringify(v: Json)
    ensures Parse(Text(v)) == Some(v)
  {
    ParseText(v, "");
    assert Text(v) + "" == Text(v);
  }

  // ------------------------------------------------------------------ values end where they end

  lemma {:induction false} ExtendString(p: string, q: string)
    requires ParseString(p).Some?
    ensures ParseString(p + q) == Some((ParseString(p).value.0, ParseString(p).value.1 + q))
    decreases |p|
  {
    if p[0] == '"' {
      assert (p + q)[1..] == p[1..] + q;
    } else {
      var k := Unescape(p).value.1;
      assert Unescape(p + q) == Unescape(p);
      ExtendString(p[k..], q);
      assert (p + q)[k..] == p[k..] + q;
    }
  }

  lemma ExtendNumber(p: string, q: string)
    requires ParseNumber(p).Some? && ParseNumber(p).value.1 != ""
    ensures ParseNumber(p + q) == Some((ParseNumber(p).value.0, ParseNumber(p).value.1 + q))
  {
    var sign := if p[0] == '-' then 1 else 0;
    var d := p[sign..];
    var n := DigitsIn(d);
    var k := sign + n;
    assert d == d[..n] + d[n..] && d[n..][0] == d[n];
    DigitsStop(d[..n], d[n..] + q);
    assert (p + q)[sign..] == d[..n] + (d[n..] + q);
    assert (p + q)[..k] == p[..k] && (p + q)[k..] == p[k..] + q;
  }

  /** Text that parses keeps its meaning when more text follows, unless it ends in a number. */
  lemma {:induction false} ExtendValue(p: string, q: string)
    requires ParseValue(p).Some? && (ParseValue(p).value.1 != "" || !ParseValue(p).value.0.JNum?)
    ensures ParseValue(p + q) == Some((ParseValue(p).value.0, ParseValue(p).value.1 + q))
    decreases |p|, 1
  {
    var s := p + q;
    NothingParses("");
    assert p != "";
    assert s[0] == p[0];
    if p[0] == '[' {
      ExtendArray(p, q);
    } else if p[0] == '{' {
      ExtendObject(p, q);
    } else {
      hide ParseItems, ParseFields;
      assert s[1..] == p[1..] + q;
      ExtendScalar(p, q);
    }
  }

  lemma ExtendScalar(p: string, q: string)
    requires p != "" && p[0] != '[' && p[0] != '{' && ParseValue(p).Some?
    requires ParseValue(p).value.1 != "" || !ParseValue(p).value.0.JNum?
    ensures ParseValue(p + q) == Some((ParseValue(p).value.0, ParseValue(p).value.1 + q))
  {
    var s := p + q;
    Dispatch(p);
    Dispatch(s);
    ScalarFirst(p);
    hide ParseValue, ParseNumber, ParseString;
    if p[0] == '"' {
      ExtendString(p[1..], q);
      assert s[1..] == p[1..] + q;
    } else if IsDigit(p[0]) || p[0] == '-' {
      ExtendNumber(p, q);
    } else {
      var k := if Starts(p, "false") then 5 else 4;
      assert s[k..] == p[k..] + q;
    }
  }

  lemma ScalarFirst(p: string)
    requires p != "" && p[0] != '[' && p[0] != '{' && ParseValue(p).Some?
    ensures Starts(p, "null") || Starts(p, "true") || Starts(p, "false") || p[0] == '"' || IsDigit(p[0]) || p[0] == '-'
    ensures p[0] != '"' && !IsDigit(p[0]) && p[0] != '-' ==> !ParseValue(p).value.0.JNum?
    ensures IsDigit(p[0]) || p[0] == '-' ==> ParseValue(p).value.0.JNum?
  {
    hide ParseString, ParseItems, ParseFields;
    CharOf(p, "[]", 0);
    CharOf(p, "{}", 0);
    CharOf(p, "null", 0);
    CharOf(p, "true", 0);
    CharOf(p, "false", 0);
    if !IsDigit(p[0]) && p[0] != '-' { assert p[0..] == p && DigitsIn(p) == 0; }
  }

  lemma {:induction false} ExtendArray(p: string, q: string)
    requires p != "" && p[0] == '[' && ParseValue(p).Some?
    ensures ParseValue(p + q) == Some((ParseValue(p).value.0, ParseValue(p).value.1 + q))
    decreases |p|, 0
  {
    var s := p + q;
    ArrayInside(p);
    assert s[0] == '[' && s[1..] == p[1..] + q && s[1] == p[1];
    if Starts(p, "[]") {
      DispatchArray(s);
      DispatchArray(p);
      assert s[2..] == p[2..] + q;
    } else {
      ExtendItems(p[1..], q);
      DispatchArray(s);
      DispatchArray(p);
    }
    hide ParseValue, ParseItems;
  }

  lemma ArrayInside(p: string)
    requires p != "" && p[0] == '[' && ParseValue(p).Some?
    ensures |p| > 1 && (Starts(p, "[]") || (p[1] != ']' && ParseItems(p[1..]).Some?))
  {
    CharOf(p, "null", 0);
    CharOf(p, "true", 0);
    CharOf(p, "false", 0);
    NothingParses("");
    hide ParseString, ParseFields, ParseItems;
  }

  lemma NothingParses(s: string)
    requires s == ""
    ensures ParseItems(s).None? && ParseFields(s).None? && ParseValue(s).None?
  {
    assert ParseNumber(s).None?;
  }

  lemma {:induction false} ExtendObject(p: string, q: string)
    requires p != "" && p[0] == '{' && ParseValue(p).Some?
    ensures ParseValue(p + q) == Some((ParseValue(p).value.0, ParseValue(p).value.1 + q))
    decreases |p|, 0
  {
    var s := p + q;
    ObjectInside(p);
    DispatchObject(p);
    DispatchObject(s);
    hide ParseValue, ParseFields;
    if Starts(p, "{}") {
      assert s[2..] == p[2..] + q;
    } else {
      assert s[1..] == p[1..] + q && s[1] == p[1];
      CharOf(s, "{}", 1);
      ExtendFields(p[1..], q);
    }
  }

  lemma ObjectInside(p: string)
    requires p != "" && p[0] == '{' && ParseValue(p).Some?
    ensures |p| > 1 && (Starts(p, "{}") || (p[1] == '"' && ParseFields(p[1..]).Some?))
  {
    DispatchObject(p);
    NothingParses("");
    hide ParseValue, ParseString;
    assert |p| > 1;
    assert p[1..][0] == p[1];
  }

  lemma {:induction false} ExtendItems(p: string, q: string)
    requires ParseItems(p).Some?
    ensures ParseItems(p + q) == Some((ParseItems(p).value.0, ParseItems(p).value.1 + q))
    decreases |p|, 2
  {
    ExtendValue(p, q);
    var rest := ParseValue(p).value.1;
    assert (rest + q)[1..] == rest[1..] + q;
    if rest[0] == ',' { ExtendItems(rest[1..], q); }
    hide ParseValue;
  }

  lemma {:induction false} ExtendFields(p: string, q: string)
    requires ParseFields(p).Some?
    ensures ParseFields(p + q) == Some((ParseFields(p).value.0, ParseFields(p).value.1 + q))
    decreases |p|, 1
  {
    hide ParseValue, ParseString;
    assert (p + q)[1..] == p[1..] + q;
    ExtendString(p[1..], q);
    var more := ParseString(p[1..]).value.1;
    assert (more + q)[1..] == more[1..] + q;
    ExtendValue(more[1..], q);
    var rest := ParseValue(more[1..]).value.1;
    assert (rest + q)[1..] == rest[1..] + q;
    if rest[0] == ',' { ExtendFields(rest[1..], q); }
  }

  /** A torn object does not parse: no proper prefix of an object's text is a JSON text. */
  lemma TornIsRejected(fields: seq<Member>, k: nat)
    requires k < |Text(JObj(fields))|
    ensures Parse(Text(JObj(fields))[..k]) == None
  {
    var text := Text(JObj(fields));
    var p, q := text[..k], text[k..];
    assert p + q == text;
    ParseText(JObj(fields), "");
    assert text + "" == text;
    if ParseValue(p).Some? {
      ObjectFirst(fields, k);
      hide ParseValue, Text;
      ExtendObject(p, q);
    }
  }

  lemma ObjectFirst(fields: seq<Member>, k: nat)
    requires k < |Text(JObj(fields))| && ParseValue(Text(JObj(fields))[..k]).Some?
    ensures k > 0 && Text(JObj(fields))[..k][0] == '{'
  {
    NothingParses("");
    assert Text(JObj(fields))[..0] == "";
  }

  // ------------------------------------------------------------------ lines

  ghost predicate NoControl(s: string) { forall i :: 0 <= i < |s| ==> s[i] >= ' ' }

  lemma {:induction false} EscapedNoControl(s: string)
    ensures NoControl(Escaped(s))
  {
    if s != "" { EscapedNoControl(s[1..]); }
  }

  lemma PrintNoControl(n: int)
    ensures NoControl(Print(n))
  {
  }

  /** The text of a value is printable, so it never breaks a line. */
  lemma {:induction false} TextNoControl(v: Json)
    ensures NoControl(Text(v))
    decreases v, 0
  {
    match v
    case JNum(n) => PrintNoControl(n);
    case JStr(s) => EscapedNoControl(s);
    case JArr(items) => ItemsNoControl(items);
    case JObj(fields) => FieldsNoControl(fields);
    case _ =>
  }

  lemma {:induction false} ItemsNoControl(items: seq<Json>)
    ensures NoControl(ItemsText(items))
    decreases items, 1
  {
    if items != [] {
      TextNoControl(items[0]);
      if |items| > 1 { ItemsNoControl(items[1..]); }
    }
  }

  lemma {:induction false} FieldsNoControl(fields: seq<Member>)
    ensures NoControl(FieldsText(fields))
    decreases fields, 1
  {
    if fields != [] {
      EscapedNoControl(fields[0].name);
      TextNoControl(fields[0].value);
      if |fields| > 1 { FieldsNoControl(fields[1..]); }
    }
  }
}
