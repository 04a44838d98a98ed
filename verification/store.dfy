/** The durable RFQ store (store.ts): an append-only file of JSON lines, replayed into the index. */
module RfqStore {
  import opened Types
  import opened RfqIndex
  import opened Json
  import opened StoredForm

  datatype Record = RfqRecord(rfq: Rfq) | QuoteRecord(quote: Quote) | QuoteDeleted(id: QuoteId)

  function RecordMembers(r: Record): seq<Member> {
    match r
    case RfqRecord(rfq) => [Member("k", JStr("rfq")), Member("v", RfqToStored(rfq))]
    case QuoteRecord(q) => [Member("k", JStr("quote")), Member("v", QuoteToStored(q))]
    case QuoteDeleted(id) => [Member("k", JStr("quote_del")), Member("id", N(id))]
  }

  function RecordText(r: Record): string { Text(JObj(RecordMembers(r))) }

  function Line(r: Record): string { RecordText(r) + "\n" }

  function RecordOf(j: Json): Option<Record> {
    var k :- At(j, 0, "k");
    if k == JStr("rfq") then
      var v :- At(j, 1, "v"); var rfq :- RfqFromStored(v); Some(RfqRecord(rfq))
    else if k == JStr("quote") then
      var v :- At(j, 1, "v"); var q :- QuoteFromStored(v); Some(QuoteRecord(q))
    else if k == JStr("quote_del") then
      var id :- At(j, 1, "id"); var id :- ReadId(id); Some(QuoteDeleted(id))
    else None
  }

  function ApplyRecord(ix: Index, r: Record): Index {
    match r
    case RfqRecord(rfq) => PutRfq(ix, rfq)
    case QuoteRecord(q) => PutQuote(ix, q)
    case QuoteDeleted(id) => DeleteQuote(ix, id)
  }

  // ------------------------------------------------------------------ loading a file

  predicate Blank(c: char) { c == ' ' || c == '\n' || c == '\t' || c == '\r' }

  function TrimEnd(s: string): string { if s != "" && Blank(s[|s| - 1]) then TrimEnd(s[..|s| - 1]) else s }

  function TrimStart(s: string): string { if s != "" && Blank(s[0]) then TrimStart(s[1..]) else s }

  function Trim(s: string): string { TrimStart(TrimEnd(s)) }

  /** file.split("\n"). */
  function Lines(s: string): (ls: seq<string>)
    ensures |ls| > 0
    decreases |s|
  {
    if s == "" then [""]
    else if s[0] == '\n' then [""] + Lines(s[1..])
    else ConsFirst(s[0], Lines(s[1..]))
  }

  function ConsFirst(c: char, ls: seq<string>): (r: seq<string>)
    requires |ls| > 0
    ensures |r| == |ls|
  {
    [[c] + ls[0]] + ls[1..]
  }

  /** Blank lines and lines that do not parse are skipped. */
  function LoadLine(ix: Index, line: string): Index {
    var t := Trim(line);
    if t == "" then ix
    else
      match Parse(t)
      case None => ix
      case Some(j) => match RecordOf(j) case Some(r) => ApplyRecord(ix, r) case None => ix
  }

  function LoadLines(ix: Index, ls: seq<string>): Index {
    if ls == [] then ix else LoadLine(LoadLines(ix, ls[..|ls| - 1]), ls[|ls| - 1])
  }

  /** The index after a restart on this file. */
  function Load(file: string): Index { LoadLines(Empty, Lines(file)) }

  /** The file ends where a line ends: no append was torn. */
  predicate Whole(file: string) { file == "" || file[|file| - 1] == '\n' }

  // ------------------------------------------------------------------ appending

  lemma {:induction false} LinesOfPlain(s: string)
    requires '\n' !in s
    ensures Lines(s) == [s]
  {
    if s != "" {
      assert s[0] in s;
      LinesOfPlain(s[1..]);
      assert [s[0]] + s[1..] == s;
    }
  }

  /** Text appended to a whole file only adds lines. */
  lemma {:induction false} LinesAppend(f: string, x: string)
    requires Whole(f)
    ensures Lines(f)[|Lines(f)| - 1] == ""
    ensures Lines(f + x) == Lines(f)[..|Lines(f)| - 1] + Lines(x)
    decreases |f|
  {
    if f == "" {
      assert f + x == x;
    } else if f[0] == '\n' {
      assert (f + x)[1..] == f[1..] + x;
      LinesAppend(f[1..], x);
    } else {
      assert |f| > 1;
      assert (f + x)[1..] == f[1..] + x;
      LinesAppend(f[1..], x);
      var a := Lines(f[1..]);
      SeveralLines(f[1..]);
      assert (f + x)[0] == f[0];
      hide Lines;
      ConsFirstAppend(f[0], a, Lines(x));
    }
  }

  lemma ConsFirstAppend(c: char, a: seq<string>, more: seq<string>)
    requires |a| > 1
    ensures ConsFirst(c, a)[|a| - 1] == a[|a| - 1]
    ensures ConsFirst(c, a[..|a| - 1] + more) == ConsFirst(c, a)[..|a| - 1] + more
  {
  }

  lemma {:induction false} SeveralLines(f: string)
    requires Whole(f) && f != ""
    ensures |Lines(f)| > 1
  {
    if |f| > 1 && f[0] != '\n' { SeveralLines(f[1..]); }
  }

  lemma {:induction false} LoadLinesConcat(ix: Index, a: seq<string>, b: seq<string>)
    ensures LoadLines(ix, a + b) == LoadLines(LoadLines(ix, a), b)
  {
    if b == [] {
      assert a + b == a;
    } else {
      assert (a + b)[..|a + b| - 1] == a + b[..|b| - 1];
      LoadLinesConcat(ix, a, b[..|b| - 1]);
    }
  }

  lemma BlankLine(ix: Index)
    ensures LoadLine(ix, "") == ix
  {
  }

  lemma BlankLines(ix: Index)
    ensures LoadLines(ix, [""]) == ix
  {
    assert [""][..0] == [] && Trim("") == "";
    hide Trim;
  }

  lemma LoadAppend(f: string, x: string)
    requires Whole(f)
    ensures Load(f + x) == LoadLines(Load(f), Lines(x))
  {
    hide Lines, LoadLines, LoadLine, Whole;
    LinesAppend(f, x);
    var init := Lines(f)[..|Lines(f)| - 1];
    assert Lines(f) == init + [""];
    LoadLinesConcat(Empty, init, Lines(x));
    LoadLinesConcat(Empty, init, [""]);
    BlankLines(LoadLines(Empty, init));
  }

  /** Every record's line reads back as that record. */
  lemma RecordRoundTrip(r: Record)
    ensures RecordOf(JObj(RecordMembers(r))) == Some(r)
  {
    assert "quote"[0] == 'q' && "rfq"[0] == 'r' && |"quote_del"| == 9 && |"quote"| == 5;
    match r
    case RfqRecord(rfq) => RfqRoundTrip(rfq); hide RfqFromStored, RfqToStored;
    case QuoteRecord(q) => QuoteRoundTrip(q); hide QuoteFromStored, QuoteToStored;
    case QuoteDeleted(id) => Scalars(id); hide N, ReadN;
  }

  lemma {:induction false} TrimEndIsPrefix(s: string)
    ensures |TrimEnd(s)| <= |s| && TrimEnd(s) == s[..|TrimEnd(s)|]
  {
    if s != "" && Blank(s[|s| - 1]) { TrimEndIsPrefix(s[..|s| - 1]); }
  }

  lemma TextEnds(r: Record)
    ensures |RecordText(r)| > 1 && RecordText(r)[0] == '{' && RecordText(r)[|RecordText(r)| - 1] == '}'
  {
    hide FieldsText, RecordMembers;
  }

  lemma TextIsPlain(r: Record)
    ensures '\n' !in RecordText(r)
  {
    TextNoControl(JObj(RecordMembers(r)));
    hide Text, RecordMembers;
  }

  /** A whole record's text, with or without its newline, applies the record. */
  lemma LoadsRecord(ix: Index, r: Record)
    ensures LoadLine(ix, RecordText(r)) == ApplyRecord(ix, r)
  {
    TextEnds(r);
    ParseStringify(JObj(RecordMembers(r)));
    RecordRoundTrip(r);
    hide Text, RecordMembers, Parse, RecordOf, ApplyRecord;
  }

  lemma TrimTorn(t: string, k: nat) returns (m: nat)
    requires k <= |t| && t != "" && t[0] == '{'
    ensures m <= k && Trim(t[..k]) == t[..m]
  {
    TrimEndIsPrefix(t[..k]);
    m := |TrimEnd(t[..k])|;
    assert TrimEnd(t[..k]) == t[..m];
  }

  /** A torn one changes nothing. */
  lemma SkipsTorn(ix: Index, r: Record, k: nat)
    requires k < |RecordText(r)|
    ensures LoadLine(ix, RecordText(r)[..k]) == ix
  {
    TextEnds(r);
    var m := TrimTorn(RecordText(r), k);
    TornIsRejected(RecordMembers(r), m);
    hide Trim, Text, RecordMembers, Parse, RecordOf, ApplyRecord;
  }

  lemma LoadOne(ix: Index, line: string)
    ensures LoadLines(ix, [line]) == LoadLine(ix, line) == LoadLines(ix, [line, ""])
  {
    assert [line][..0] == [] && [line, ""][..1] == [line];
    BlankLine(LoadLine(ix, line));
    hide LoadLine;
  }

  lemma TornAppend(file: string, r: Record, k: nat)
    requires Whole(file) && k < |RecordText(r)|
    ensures Load(file + RecordText(r)[..k]) == Load(file)
  {
    var x := RecordText(r)[..k];
    TextIsPlain(r);
    hide Load, LoadLine, RecordText;
    LoadAppend(file, x);
    LinesOfPlain(x);
    LoadOne(Load(file), x);
    SkipsTorn(Load(file), r, k);
  }

  lemma CompleteAppend(file: string, r: Record)
    requires Whole(file)
    ensures Load(file + RecordText(r)) == ApplyRecord(Load(file), r) == Load(file + Line(r))
  {
    var t := RecordText(r);
    TextIsPlain(r);
    hide Load, LoadLine, RecordText, ApplyRecord;
    LoadAppend(file, t);
    LoadAppend(file, t + "\n");
    LinesOfPlain(t);
    LinesOfLine(t);
    LoadOne(Load(file), t);
    LoadsRecord(Load(file), r);
  }

  /** A crash at any byte of an append reloads to the index before it or to the index after it,
      and to the latter as soon as the record's own text is complete. */
  lemma CrashDuringAppend(file: string, r: Record, k: nat)
    requires Whole(file) && k <= |Line(r)|
    ensures Load(file + Line(r)[..k]) == if k < |RecordText(r)| then Load(file) else ApplyRecord(Load(file), r)
  {
    hide Load, RecordText, ApplyRecord;
    if k < |RecordText(r)| {
      assert Line(r)[..k] == RecordText(r)[..k];
      TornAppend(file, r, k);
    } else {
      assert Line(r)[..k] == if k == |RecordText(r)| then RecordText(r) else Line(r);
      CompleteAppend(file, r);
    }
  }

  lemma {:induction false} LinesOfLine(t: string)
    requires '\n' !in t
    ensures Lines(t + "\n") == [t, ""]
  {
    if t == "" {
      assert t + "\n" == "\n";
      assert "\n"[1..] == "";
    } else {
      assert t[0] in t;
      assert (t + "\n")[1..] == t[1..] + "\n";
      LinesOfLine(t[1..]);
      assert [t[0]] + t[1..] == t;
    }
  }

  /** A completed append is the record's effect, and leaves the file whole. */
  lemma AppendApplies(file: string, r: Record)
    requires Whole(file)
    ensures Whole(file + Line(r)) && Load(file + Line(r)) == ApplyRecord(Load(file), r)
  {
    hide Load, RecordText, ApplyRecord;
    CompleteAppend(file, r);
  }
}
