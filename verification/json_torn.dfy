/** What JSON.parse makes of a torn text with more text glued to it: a writer died inside one object, and the next
    one was written straight onto the fragment. */
module JsonTorn {
  import opened Types
  import opened Decimal
  import opened Json

  /** What may be left after parsing into glued text: nothing, the start of the next object, or the name k that
      follows a quote meant to open it. None of these continues a list or an object. */
  predicate Stuck(rest: string) { rest == "" || rest[0] == '{' || rest[0] == 'k' }

  predicate StuckValue(s: string) { ParseValue(s).None? || Stuck(ParseValue(s).value.1) }

  predicate StuckString(s: string) { ParseString(s).None? || Stuck(ParseString(s).value.1) }

  /** Text that begins with a fragment of a record, read as a value or from inside a string. */
  predicate Glued(x: string) { x != "" && x[0] == '{' && StuckValue(x) && StuckString(x) }

  // ------------------------------------------------------------------ scalars

  lemma TornWord(word: string, k: nat, x: string)
    requires word == "null" || word == "true" || word == "false"
    requires k < |word| && Glued(x)
    ensures StuckValue(word[..k] + x)
  {
    var s := word[..k] + x;
    if k == 0 {
      assert s == x;
    } else {
      assert s[0] == word[0] && s[k] == '{';
      hide ParseString, ParseItems, ParseFields, ParseValue, StuckString;
      NotAWord(s, word, k);
      NumberFirst(s);
    }
  }

  lemma NotAWord(s: string, word: string, k: nat)
    requires word == "null" || word == "true" || word == "false"
    requires 0 < k < |word| && k < |s| && s[0] == word[0] && s[k] == '{'
    ensures ParseValue(s) == ParseNumber(s)
  {
    hide ParseNumber, ParseString, ParseItems, ParseFields;
    CharOf(s, "null", 0);
    CharOf(s, "true", 0);
    CharOf(s, "false", 0);
    CharOf(s, "[]", 0);
    CharOf(s, "{}", 0);
    CharOf(s, word, k);
  }

  lemma NumberFirst(s: string)
    requires s != "" && !IsDigit(s[0]) && s[0] != '-'
    ensures ParseNumber(s).None?
  {
    assert s[0..] == s && s[..0] == "";
  }

  lemma TornNumber(n: int, k: nat, x: string)
    requires k < |Print(n)| && Glued(x)
    ensures StuckValue(Print(n)[..k] + x)
  {
    var p, s := Print(n)[..k], Print(n)[..k] + x;
    if k == 0 {
      assert s == x;
    } else {
      ParsePrinted(n, "");
      hide ParseValue, ParseString, StuckString;
      Dispatch(s);
      NumberStops(p, x);
    }
  }

  lemma NumberStops(p: string, x: string)
    requires p != "" && x != "" && x[0] == '{' && AllDigits(if p[0] == '-' then p[1..] else p)
    ensures ParseNumber(p + x).None? || ParseNumber(p + x).value.1 == x
  {
    var s := p + x;
    var sign := if p[0] == '-' then 1 else 0;
    assert s[sign..] == p[sign..] + x;
    DigitsStop(p[sign..], x);
    hide DigitsIn, Read;
    assert s[|p|..] == x;
  }

  lemma TornEscape(c: char, k: nat, x: string)
    requires 0 < k < |Escape(c)| && x != "" && x[0] == '{'
    ensures Unescape(Escape(c)[..k] + x).None? && Escape(c)[0] == '\\'
  {
    var s := Escape(c)[..k] + x;
    assert s[k] == '{' && s[0] == '\\';
    assert forall i :: 0 <= i < k ==> s[i] == Escape(c)[i];
  }

  lemma {:induction false} TornString(t: string, k: nat, x: string)
    requires k <= |Escaped(t)| && Glued(x)
    ensures StuckString(Escaped(t)[..k] + x)
  {
    var s := Escaped(t)[..k] + x;
    if k == 0 {
      assert s == x;
    } else {
      hide StuckValue, Escape, Unescape;
      var e := Escape(t[0]);
      if k < |e| {
        assert s == e[..k] + x;
        TornEscape(t[0], k, x);
      } else {
        var more := Escaped(t[1..])[..k - |e|] + x;
        assert s == e + more;
        UnescapeEscape(t[0], more);
        TornString(t[1..], k - |e|, x);
      }
    }
  }

  lemma TornQuoted(t: string, k: nat, x: string)
    requires k < |Quoted(t)| && Glued(x)
    ensures StuckValue(Quoted(t)[..k] + x)
  {
    var s := Quoted(t)[..k] + x;
    hide ParseValue, ParseString, Escaped;
    if k == 0 {
      assert s == x;
    } else {
      assert s[1..] == Escaped(t)[..k - 1] + x;
      TornString(t, k - 1, x);
      Dispatch(s);
    }
  }

  // ------------------------------------------------------------------ lists and objects

  lemma ItemsStuck(s: string)
    requires StuckValue(s)
    ensures ParseItems(s).None?
  {
    hide ParseValue;
  }

  lemma ItemsGoOn(s: string, v: Json, more: string)
    requires ParseValue(s) == Some((v, "," + more)) && ParseItems(more).None?
    ensures ParseItems(s).None?
  {
    hide ParseValue;
    assert ("," + more)[1..] == more;
  }

  lemma FieldStuck(s: string)
    requires s == "" || s[0] != '"' || StuckString(s[1..])
    ensures ParseFields(s).None?
  {
    hide ParseValue, ParseString;
  }

  lemma FieldValueStuck(s: string, name: string, more: string)
    requires s != "" && s[0] == '"' && ParseString(s[1..]) == Some((name, ":" + more)) && StuckValue(more)
    ensures ParseFields(s).None?
  {
    hide ParseValue, ParseString;
    assert (":" + more)[1..] == more;
  }

  lemma FieldsGoOn(s: string, name: string, more: string, v: Json, left: string)
    requires s != "" && s[0] == '"' && ParseString(s[1..]) == Some((name, ":" + more))
    requires ParseValue(more) == Some((v, "," + left)) && ParseFields(left).None?
    ensures ParseFields(s).None?
  {
    hide ParseValue, ParseString;
    assert (":" + more)[1..] == more && ("," + left)[1..] == left;
  }

  /** A torn value with a record glued to it never ends in a place where a list or an object could go on; a torn list
      or object does not parse at all. */
  lemma {:induction false} TornValue(v: Json, k: nat, x: string)
    requires k < |Text(v)| && Glued(x)
    ensures StuckValue(Text(v)[..k] + x)
    ensures v.JObj? && k > 0 ==> ParseValue(Text(v)[..k] + x).None?
    decreases v, 0
  {
    var s := Text(v)[..k] + x;
    hide ParseValue, ParseNumber, ParseString, ParseItems, ParseFields, Print, Quoted;
    if k == 0 {
      assert s == x;
    } else {
      match v
      case JNull => TornWord("null", k, x);
      case JBool(b) => TornWord(if b then "true" else "false", k, x);
      case JNum(n) => TornNumber(n, k, x);
      case JStr(t) => TornQuoted(t, k, x);
      case JArr(items) =>
        if items != [] { TornItems(items, k - 1, x); }
        TornArray(items, k, x);
      case JObj(fields) =>
        if fields != [] { TornFields(fields, k - 1, x); }
        TornObject(fields, k, x);
    }
  }

  lemma TornArray(items: seq<Json>, k: nat, x: string)
    requires 0 < k <= |ItemsText(items)| + 1 && Glued(x)
    requires items != [] ==> ParseItems(ItemsText(items)[..k - 1] + x).None?
    ensures ParseValue(Text(JArr(items))[..k] + x).None?
  {
    hide ParseValue, ParseString, ParseItems, ItemsText, StuckString;
    var s := Text(JArr(items))[..k] + x;
    assert s[1..] == ItemsText(items)[..k - 1] + x;
    if items == [] { NoItems(); ItemsStuck(x); } else { ItemsFirst(items, k - 1, x); }
    DispatchArray(s);
  }

  lemma NoItems()
    ensures ItemsText([]) == "" && FieldsText([]) == ""
  {
  }

  lemma TornObject(fields: seq<Member>, k: nat, x: string)
    requires 0 < k <= |FieldsText(fields)| + 1 && Glued(x)
    requires fields != [] ==> ParseFields(FieldsText(fields)[..k - 1] + x).None?
    ensures ParseValue(Text(JObj(fields))[..k] + x).None?
  {
    hide ParseValue, ParseString, ParseFields, FieldsText, StuckString;
    var s := Text(JObj(fields))[..k] + x;
    assert s[1..] == FieldsText(fields)[..k - 1] + x;
    if fields == [] { NoItems(); FieldStuck(x); } else { FieldsFirst(fields, k - 1, x); }
    CharOf(s, "{}", 1);
    DispatchObject(s);
  }

  lemma ItemsFirst(items: seq<Json>, k: nat, x: string)
    requires items != [] && k <= |ItemsText(items)| && x != "" && x[0] == '{'
    ensures var s := ItemsText(items)[..k] + x; s != "" && s[0] != ']'
  {
    hide ItemsText;
    FirstOfItems(items);
  }

  lemma FieldsFirst(fields: seq<Member>, k: nat, x: string)
    requires fields != [] && k <= |FieldsText(fields)| && x != "" && x[0] == '{'
    ensures var s := FieldsText(fields)[..k] + x; s != "" && s[0] != '}'
  {
    hide FieldsText;
    FirstOfFields(fields);
  }

  /** A cut of head + more falls in the one or in the other. */
  lemma CutConcat(head: string, more: string, k: nat, x: string)
    requires k <= |head| + |more|
    ensures (head + more)[..k] + x == if k <= |head| then head[..k] + x else head + (more[..k - |head|] + x)
  {
  }

  lemma {:induction false} TornItems(items: seq<Json>, k: nat, x: string)
    requires items != [] && k <= |ItemsText(items)| && Glued(x)
    ensures ParseItems(ItemsText(items)[..k] + x).None?
    decreases items, 1
  {
    hide ParseValue, ParseItems, Text, StuckString;
    var head, s := Text(items[0]), ItemsText(items)[..k] + x;
    if k < |head| {
      assert s == head[..k] + x;
      TornValue(items[0], k, x);
      ItemsStuck(s);
    } else if k == |head| {
      assert s == head + x;
      ParseText(items[0], x);
      ItemsStuck(s);
    } else {
      var rest := ItemsText(items[1..])[..k - |head| - 1] + x;
      var tail := ItemsText(items[1..]);
      assert ItemsText(items) == head + "," + tail;
      hide ItemsText;
      AfterComma(head, tail, k, x);
      ParseText(items[0], "," + rest);
      TornItems(items[1..], k - |head| - 1, x);
      ItemsGoOn(s, items[0], rest);
    }
  }

  lemma AfterComma(head: string, tail: string, k: nat, x: string)
    requires |head| < k <= |head| + 1 + |tail|
    ensures (head + "," + tail)[..k] + x == head + ("," + (tail[..k - |head| - 1] + x))
  {
  }

  lemma AfterColon(name: string, more: string, k: nat, x: string)
    requires |name| + 2 < k <= |name| + 3 + |more|
    ensures var s := ("\"" + name + "\"" + ":" + more)[..k] + x;
            s[0] == '"' && s[1..] == name + "\"" + (":" + (more[..k - |name| - 3] + x))
  {
  }

  lemma InName(name: string, more: string, k: nat, x: string)
    requires 0 < k <= |name| + 2
    ensures var s := ("\"" + name + "\"" + ":" + more)[..k] + x;
            s[0] == '"' && s[1..] == if k <= |name| + 1 then name[..k - 1] + x else name + "\"" + x
  {
  }

  lemma {:induction false} TornFields(fields: seq<Member>, k: nat, x: string)
    requires fields != [] && k <= |FieldsText(fields)| && Glued(x)
    ensures ParseFields(FieldsText(fields)[..k] + x).None?
    decreases fields, 1
  {
    hide ParseValue, ParseString, ParseFields, Text, Escaped, FieldsText;
    var name, e, t := fields[0].name, Escaped(fields[0].name), Text(fields[0].value);
    var more := if |fields| == 1 then "" else "," + FieldsText(fields[1..]);
    var s := FieldsText(fields)[..k] + x;
    FieldsShape(fields, more);
    Listed("\"" + e + "\"" + ":", t, more);
    if k == 0 {
      assert s == x;
      FieldStuck(s);
    } else if k <= |e| + 1 {
      InName(e, t + more, k, x);
      TornString(name, k - 1, x);
      FieldStuck(s);
    } else if k == |e| + 2 {
      InName(e, t + more, k, x);
      ParseQuoted(name, x);
      FieldStuck(s);
    } else {
      AfterColon(e, t + more, k, x);
      TornField(fields, s, k - |e| - 3, more, x);
    }
  }

  /** The cut lies in a member's value or behind it. */
  lemma {:induction false} TornField(fields: seq<Member>, s: string, m: nat, more: string, x: string)
    requires fields != [] && Glued(x) && more == if |fields| == 1 then "" else "," + FieldsText(fields[1..])
    requires m <= |Text(fields[0].value)| + |more| && s != "" && s[0] == '"'
    requires s[1..] == Escaped(fields[0].name) + "\"" + (":" + ((Text(fields[0].value) + more)[..m] + x))
    ensures ParseFields(s).None?
    decreases fields, 0
  {
    hide ParseValue, ParseString, ParseFields, Text, Escaped, FieldsText, StuckString;
    var name, v, t := fields[0].name, fields[0].value, Text(fields[0].value);
    var left := (t + more)[..m] + x;
    ParseQuoted(name, ":" + left);
    CutConcat(t, more, m, x);
    if m < |t| {
      TornValue(v, m, x);
      FieldValueStuck(s, name, left);
    } else if m == |t| {
      assert t[..m] == t;
      ParseText(v, x);
      FieldValueStuck(s, name, left);
    } else {
      var rest := FieldsText(fields[1..])[..m - |t| - 1] + x;
      assert more[..m - |t|] + x == "," + rest;
      ParseText(v, "," + rest);
      TornFields(fields[1..], m - |t| - 1, x);
      FieldsGoOn(s, name, left, v, rest);
    }
  }

  // ------------------------------------------------------------------ fragments of a record

  /** The text of an object whose first member's name begins with k, as every store record's does. */
  predicate OpensWithK(t: string) { |t| > 2 && t[0] == '{' && t[1] == '"' && t[2] == 'k' }

  lemma OpeningString(t: string, k: nat, x: string)
    requires OpensWithK(t) && 0 < k <= |t| && (x == "" || (x[0] == '{' && StuckString(x)))
    ensures StuckString(t[..k] + x)
  {
    var s := t[..k] + x;
    assert s[0] == '{' && Unescape(s) == Some(('{', 1));
    if k == 1 {
      assert s[1..] == x;
    } else {
      assert s[1..][0] == '"';
      assert s[1..][1..] == t[2..k] + x;
    }
  }

  lemma FragmentAlone(fields: seq<Member>, k: nat)
    requires 0 < k <= |Text(JObj(fields))| && OpensWithK(Text(JObj(fields)))
    ensures Glued(Text(JObj(fields))[..k])
  {
    var t := Text(JObj(fields));
    var p, q := t[..k], t[k..];
    assert p + q == t && p + "" == p && t + "" == t;
    OpeningString(t, k, "");
    hide ParseValue, ParseString, Text;
    ParseText(JObj(fields), "");
    if ParseValue(p).Some? && k < |t| { ExtendObject(p, q); }
  }

  lemma FragmentGlued(fields: seq<Member>, k: nat, x: string)
    requires 0 < k <= |Text(JObj(fields))| && OpensWithK(Text(JObj(fields))) && Glued(x)
    ensures Glued(Text(JObj(fields))[..k] + x) && Parse(Text(JObj(fields))[..k] + x).None?
  {
    var t := Text(JObj(fields));
    OpeningString(t, k, x);
    hide ParseValue, ParseString, Text;
    if k < |t| {
      TornValue(JObj(fields), k, x);
    } else {
      assert t[..k] == t;
      ParseText(JObj(fields), x);
    }
  }
}
