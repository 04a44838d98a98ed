/** The RFQ log over every history of appends, some of them cut short by a crash: what a reload shows, exactly. The
    store skips a torn last line when it loads, but its next append continues that line (store.ts). */
module TornLog {
  import opened Types
  import opened RfqIndex
  import opened Json
  import opened JsonTorn
  import opened LogFile
  import opened RfqStore

  /** The first bytes of a record's line that reached the file. */
  datatype Write = Write(record: Record, bytes: nat)

  predicate Valid(h: seq<Write>) { forall w :: w in h ==> w.bytes <= |Line(w.record)| }

  /** The file after a history of appends to a base. */
  function Bytes(base: string, h: seq<Write>): string
    requires Valid(h)
  {
    if h == [] then base else Bytes(base, h[..|h| - 1]) + Line(h[|h| - 1].record)[..h[|h| - 1].bytes]
  }

  /** A reload before and after the write. */
  function After(m: Reloaded<Index>, w: Write): Reloaded<Index> {
    var applied := ApplyRecord(m.index, w.record);
    if w.bytes == 0 then m
    else if w.bytes >= |Line(w.record)| then Appended(m, applied)
    else Cut(m, applied, w.bytes >= |RecordText(w.record)|)
  }

  function ReloadOf(base: string, h: seq<Write>): Reloaded<Index> {
    if h == [] then Intact(Load(base)) else After(ReloadOf(base, h[..|h| - 1]), h[|h| - 1])
  }

  // ------------------------------------------------------------------ the open line

  /** Fragments of records, one written behind the other. */
  function Glue(cuts: seq<Write>): string
    requires Cuts(cuts)
  {
    if cuts == [] then "" else RecordText(cuts[0].record)[..cuts[0].bytes] + Glue(cuts[1..])
  }

  predicate Cuts(cuts: seq<Write>) { forall w :: w in cuts ==> 0 < w.bytes <= |RecordText(w.record)| }

  lemma RecordOpens(r: Record)
    ensures RecordText(r) == Text(JObj(RecordMembers(r))) && OpensWithK(RecordText(r))
  {
    hide Text, Escaped;
    var m := RecordMembers(r);
    assert m != [] && m[0].name == "k";
    EscapedK();
    OpensFields(m);
  }

  lemma EscapedK()
    ensures Escaped("k") == "k"
  {
    assert "k"[1..] == "";
  }

  lemma OpensFields(m: seq<Member>)
    requires m != [] && Escaped(m[0].name) == "k"
    ensures OpensWithK(Text(JObj(m)))
  {
    hide Escaped;
    assert Quoted(m[0].name) == "\"k\"";
  }

  lemma {:induction false} GluedFragments(cuts: seq<Write>)
    requires Cuts(cuts) && cuts != []
    ensures Glued(Glue(cuts)) && (|cuts| > 1 ==> Parse(Glue(cuts)).None?)
  {
    hide RecordMembers, Text, Parse, ParseValue, Glued, RecordText, OpensWithK;
    var r, k := cuts[0].record, cuts[0].bytes;
    RecordOpens(r);
    if |cuts| == 1 {
      assert Glue(cuts) == RecordText(r)[..k];
      FragmentAlone(RecordMembers(r), k);
    } else {
      GluedFragments(cuts[1..]);
      FragmentGlued(RecordMembers(r), k, Glue(cuts[1..]));
    }
  }

  lemma {:induction false} GlueLast(init: seq<Write>, last: Write)
    requires Cuts(init + [last])
    ensures Cuts(init) && Glue(init + [last]) == Glue(init) + RecordText(last.record)[..last.bytes]
  {
    hide RecordText;
    var all := init + [last];
    assert forall w :: w in init ==> w in all;
    if init == [] {
      assert all == [last] && all[1..] == [];
    } else {
      assert all[1..] == init[1..] + [last];
      GlueLast(init[1..], last);
    }
  }

  lemma {:induction false} GlueIsPlain(cuts: seq<Write>)
    requires Cuts(cuts)
    ensures '\n' !in Glue(cuts)
  {
    hide RecordText;
    if cuts != [] {
      TextIsPlain(cuts[0].record);
      GlueIsPlain(cuts[1..]);
    }
  }

  // ------------------------------------------------------------------ loading an open line

  lemma {:induction false} TrimEndBehind(a: string, b: string)
    requires TrimEnd(b) != ""
    ensures TrimEnd(a + b) == a + TrimEnd(b)
    decreases |b|
  {
    if Blank(b[|b| - 1]) {
      assert (a + b)[..|a + b| - 1] == a + b[..|b| - 1];
      TrimEndBehind(a, b[..|b| - 1]);
    }
  }

  lemma {:induction false} TrimEndKeeps(t: string)
    requires t != "" && !Blank(t[0])
    ensures TrimEnd(t) != "" && TrimEnd(t)[0] == t[0]
  {
    if Blank(t[|t| - 1]) { TrimEndKeeps(t[..|t| - 1]); }
  }

  /** Trimming an open line shortens at most its last fragment. */
  lemma TrimGlue(cuts: seq<Write>) returns (m: nat)
    requires Cuts(cuts) && cuts != []
    ensures var last := cuts[|cuts| - 1];
            0 < m <= last.bytes && Cuts(cuts[..|cuts| - 1] + [last.(bytes := m)])
            && Trim(Glue(cuts)) == Glue(cuts[..|cuts| - 1] + [last.(bytes := m)])
  {
    hide RecordText, TrimEnd;
    var init, last := cuts[..|cuts| - 1], cuts[|cuts| - 1];
    var b := RecordText(last.record)[..last.bytes];
    TextEnds(last.record);
    assert cuts == init + [last];
    GlueLast(init, last);
    TrimEndKeeps(b);
    TrimEndIsPrefix(b);
    TrimEndBehind(Glue(init), b);
    m := |TrimEnd(b)|;
    assert b[..m] == RecordText(last.record)[..m];
    var short := last.(bytes := m);
    assert forall w :: w in init + [short] ==> w in init || w == short;
    assert forall w :: w in init ==> w in cuts;
    GlueLast(init, short);
    FirstIsBrace(init + [short]);
  }

  lemma FirstIsBrace(cuts: seq<Write>)
    requires Cuts(cuts) && cuts != []
    ensures Glue(cuts) != "" && Glue(cuts)[0] == '{' && TrimStart(Glue(cuts)) == Glue(cuts)
  {
    hide RecordText;
    TextEnds(cuts[0].record);
  }

  /** Two fragments or more are nothing; a single one is its record if it is complete. */
  lemma LoadsGlue(ix: Index, cuts: seq<Write>)
    requires Cuts(cuts)
    ensures LoadLine(ix, Glue(cuts))
         == if |cuts| == 1 && cuts[0].bytes == |RecordText(cuts[0].record)| then ApplyRecord(ix, cuts[0].record) else ix
  {
    hide RecordText, Parse, RecordOf, ApplyRecord, Trim, Glued;
    if cuts == [] {
      BlankLine(ix);
    } else if |cuts| == 1 {
      var r, k := cuts[0].record, cuts[0].bytes;
      assert Glue(cuts) == RecordText(r)[..k];
      if k == |RecordText(r)| {
        assert RecordText(r)[..k] == RecordText(r);
        LoadsRecord(ix, r);
      } else {
        SkipsTorn(ix, r, k);
      }
    } else {
      var m := TrimGlue(cuts);
      GluedFragments(cuts[..|cuts| - 1] + [cuts[|cuts| - 1].(bytes := m)]);
    }
  }

  lemma LoadsOpenLine(base: string, cuts: seq<Write>)
    requires Whole(base) && Cuts(cuts)
    ensures Load(base + Glue(cuts)) == LoadLine(Load(base), Glue(cuts)) == Load(base + (Glue(cuts) + "\n"))
  {
    hide Load, LoadLine, Glue, Whole;
    GlueIsPlain(cuts);
    LoadAppend(base, Glue(cuts));
    LinesOfPlain(Glue(cuts));
    LoadOne(Load(base), Glue(cuts));
    LoadAppend(base, Glue(cuts) + "\n");
    LinesOfLine(Glue(cuts));
  }

  // ------------------------------------------------------------------ every history

  /** The file is complete lines and an open one made of fragments. */
  ghost predicate Splits(file: string, m: Reloaded<Index>, body: string, cuts: seq<Write>) {
    && Cuts(cuts) && file == body + Glue(cuts) && Whole(body) && Load(body) == m.index
    && (m.torn <==> cuts != []) && m.shown == LoadLine(m.index, Glue(cuts))
  }

  lemma NextCut(file: string, m: Reloaded<Index>, body: string, cuts: seq<Write>, w: Write)
    requires Splits(file, m, body, cuts) && 0 < w.bytes <= |RecordText(w.record)|
    ensures Splits(file + Line(w.record)[..w.bytes], After(m, w), body, cuts + [w])
  {
    hide Load, LoadLine, RecordText, Whole, ApplyRecord, Glue;
    assert Line(w.record)[..w.bytes] == RecordText(w.record)[..w.bytes];
    var all := cuts + [w];
    assert forall c :: c in all ==> c in cuts || c == w;
    GlueLast(cuts, w);
    LoadsGlue(m.index, all);
    LoadsGlue(m.index, cuts);
  }

  lemma NextLine(file: string, m: Reloaded<Index>, body: string, cuts: seq<Write>, r: Record)
    requires Splits(file, m, body, cuts)
    ensures Splits(file + Line(r), After(m, Write(r, |Line(r)|)), file + Line(r), [])
  {
    hide Load, LoadLine, RecordText, ApplyRecord, Glue;
    TextEnds(r);
    var all := cuts + [Write(r, |RecordText(r)|)];
    assert forall c :: c in all ==> c in cuts || c == Write(r, |RecordText(r)|);
    assert RecordText(r)[..|RecordText(r)|] == RecordText(r);
    GlueLast(cuts, Write(r, |RecordText(r)|));
    assert file + Line(r) == body + (Glue(all) + "\n");
    LoadsOpenLine(body, all);
    LoadsGlue(m.index, all);
    LoadsGlue(m.index, cuts);
    NoCuts();
    LoadsGlue(Load(file + Line(r)), []);
  }

  lemma NoCuts()
    ensures Glue([]) == ""
  {
  }

  lemma {:induction false} Pieces(base: string, h: seq<Write>) returns (body: string, cuts: seq<Write>)
    requires Whole(base) && Valid(h)
    ensures Splits(Bytes(base, h), ReloadOf(base, h), body, cuts)
  {
    hide Load, LoadLine, Line, RecordText, Whole, Splits, After, ApplyRecord;
    if h == [] {
      body, cuts := base, [];
      Unwritten(base);
    } else {
      var init, w := h[..|h| - 1], h[|h| - 1];
      assert forall u :: u in init ==> u in h;
      body, cuts := Pieces(base, init);
      var file, m := Bytes(base, init), ReloadOf(base, init);
      if w.bytes == 0 {
        NothingWritten(file, m, w);
      } else if w.bytes <= |RecordText(w.record)| {
        NextCut(file, m, body, cuts, w);
        cuts := cuts + [w];
      } else {
        WholeLine(w);
        NextLine(file, m, body, cuts, w.record);
        body, cuts := file + Line(w.record), [];
      }
    }
  }

  lemma Unwritten(base: string)
    requires Whole(base)
    ensures Splits(base, Intact(Load(base)), base, [])
  {
    hide Load, LoadLine;
    LoadsGlue(Load(base), []);
  }

  lemma NothingWritten(file: string, m: Reloaded<Index>, w: Write)
    requires w.bytes == 0
    ensures file + Line(w.record)[..w.bytes] == file && After(m, w) == m
  {
    hide ApplyRecord;
  }

  lemma WholeLine(w: Write)
    requires |RecordText(w.record)| < w.bytes <= |Line(w.record)|
    ensures w.bytes == |Line(w.record)| && w == Write(w.record, |Line(w.record)|) && Line(w.record)[..w.bytes] == Line(w.record)
  {
    hide RecordText;
  }

  /** After any appends and crashes, at whatever bytes, a reload shows what ReloadOf says, and the file is whole
      exactly when no line is open. */
  lemma HistoryReloads(base: string, h: seq<Write>)
    requires Whole(base) && Valid(h)
    ensures Load(Bytes(base, h)) == ReloadOf(base, h).shown
    ensures Whole(Bytes(base, h)) <==> !ReloadOf(base, h).torn
  {
    hide Load, LoadLine, Bytes, ReloadOf, Glue, Line;
    var body, cuts := Pieces(base, h);
    LoadsOpenLine(body, cuts);
    if cuts == [] {
      NoCuts();
      assert body + "" == body;
    } else {
      FirstIsBrace(cuts);
      GlueIsPlain(cuts);
    }
  }

  // ------------------------------------------------------------------ what an append is worth

  /** An append to a torn file is lost, and with it the fragment: the reload shows what it showed before the torn
      record was written. */
  lemma TornFileLosesAppend(base: string, r: Record, k: nat, r2: Record)
    requires Whole(base) && 0 < k < |Line(r)|
    ensures Load(base + Line(r)[..k] + Line(r2)) == Load(base)
  {
    hide Load, Line, RecordText, Whole, ApplyRecord;
    var one, two := Write(r, k), Write(r2, |Line(r2)|);
    Two(base, one, two);
    HistoryReloads(base, [one, two]);
    LineIsTextAndNewline(r2);
  }

  lemma LineIsTextAndNewline(r: Record)
    ensures |Line(r)| > 0 && |RecordText(r)| + 1 == |Line(r)| && Line(r)[..|Line(r)|] == Line(r)
  {
    hide RecordText;
  }

  lemma Two(base: string, one: Write, two: Write)
    requires Valid([one, two])
    ensures Bytes(base, [one, two]) == base + Line(one.record)[..one.bytes] + Line(two.record)[..two.bytes]
    ensures ReloadOf(base, [one, two]) == After(After(Intact(Load(base)), one), two)
  {
    hide Load, Line, After;
    var h := [one, two];
    assert h[..|h| - 1] == [one] && [one][..|[one]| - 1] == [];
    assert Bytes(base, [one]) == Bytes(base, []) + Line(one.record)[..one.bytes];
    assert ReloadOf(base, [one]) == After(ReloadOf(base, []), one);
  }

  /** A record that lacks only its newline is there after one restart and gone after the next append. */
  lemma ShownThenGone(base: string, r: Record, r2: Record)
    requires Whole(base)
    ensures Load(base + RecordText(r)) == ApplyRecord(Load(base), r)
    ensures Load(base + RecordText(r) + Line(r2)) == Load(base)
  {
    hide Load, RecordText, ApplyRecord, Whole;
    CompleteAppend(base, r);
    TextEnds(r);
    assert Line(r)[..|RecordText(r)|] == RecordText(r);
    TornFileLosesAppend(base, r, |RecordText(r)|, r2);
  }

  /** On every file the store can have written, an append has its record's effect if the file is whole, and otherwise
      only closes the open line. */
  lemma AppendToHistory(base: string, h: seq<Write>, r: Record)
    requires Whole(base) && Valid(h)
    ensures var file := Bytes(base, h);
            Load(file + Line(r)) == if Whole(file) then ApplyRecord(Load(file), r) else ReloadOf(base, h).index
    ensures Whole(Bytes(base, h) + Line(r))
  {
    hide Load, RecordText, ApplyRecord;
    HistoryReloads(base, h);
    var next := h + [Write(r, |Line(r)|)];
    assert next[..|h|] == h;
    assert Line(r)[..|Line(r)|] == Line(r);
    HistoryReloads(base, next);
    var body, cuts := Pieces(base, h);
    if cuts == [] { LoadsGlue(Load(body), []); NoCuts(); assert body + "" == body; }
  }

  /** So appends work exactly on whole files: on any other, some append is lost. */
  lemma AppendsWorkIffWhole(base: string, h: seq<Write>)
    requires Whole(base) && Valid(h)
    ensures (forall r :: Load(Bytes(base, h) + Line(r)) == ApplyRecord(Load(Bytes(base, h)), r)) <==> Whole(Bytes(base, h))
  {
    hide Load, Bytes, ReloadOf, Line, Whole;
    var file := Bytes(base, h);
    forall r ensures Load(file + Line(r)) == if Whole(file) then ApplyRecord(Load(file), r) else ReloadOf(base, h).index {
      AppendToHistory(base, h, r);
    }
    if !Whole(file) {
      var r := RfqRecord(Fresh(ReloadOf(base, h).index));
      assert Load(file + Line(r)) == ReloadOf(base, h).index;
      assert r.rfq.id in ApplyRecord(Load(file), r).rfqs;
    }
  }

  /** Some RFQ that an index does not hold. */
  ghost function Fresh(ix: Index): (rfq: Rfq)
    ensures rfq.id !in ix.rfqs
  {
    Unused(ix.rfqs.Keys);
    var id: nat :| id !in ix.rfqs;
    Rfq(id, 1, Instrument("", 0, 0, 0, true, 0, ""), 1, 0, 0, None, Open, None, None, None, None)
  }

  lemma {:induction false} Unused(ids: set<nat>)
    ensures exists id: nat :: id !in ids
  {
    var bound := Bound(ids);
    assert bound !in ids;
  }

  lemma {:induction false} Bound(ids: set<nat>) returns (b: nat)
    ensures forall id :: id in ids ==> id < b
    decreases |ids|
  {
    if ids == {} { return 0; }
    var x :| x in ids;
    var y := Bound(ids - {x});
    assert forall z :: z in ids ==> z == x || z in ids - {x};
    b := if x < y then y else x + 1;
  }
}
