/**
 * The scanf formats of the charge-stats reporter. Every one of them is a
 * literal lead-in, a first conversion, then fields that each consist of a
 * separator (literals and blanks) and one more conversion. Writing them in
 * that shape lets their conversion slots, their nesting and their
 * round-trip behaviour be derived from general lemmas.
 */
module Formats {
  import opened Wrappers
  import opened Scanf

  /** A separator followed by one conversion. */
  datatype Field = Field(sep: seq<Directive>, conv: Directive)

  /** A format: lead-in literals, a first conversion and further fields. */
  datatype Layout = Layout(lead: seq<Directive>, first: Directive, more: seq<Field>)

  function Comma(d: Directive): Field { Field([Lit(',')], d) }
  function CommaBlank(d: Directive): Field { Field([Lit(','), Blank], d) }
  function BlankSep(d: Directive): Field { Field([Blank], d) }

  /** "%d,%d,%d, %d,%d,%d,%d": the baseline charge-session line. */
  const ChgStatsFmt0 := Layout([], DecInt,
    [Comma(DecInt), Comma(DecInt), CommaBlank(DecInt), Comma(DecInt), Comma(DecInt), Comma(DecInt)])

  /** "%d,%d,%d, %d,%d,%d,%d %d": the baseline line plus the AACR capacity. */
  const ChgStatsFmt1 := Layout([], DecInt, ChgStatsFmt0.more + [BlankSep(DecInt)])

  /** "%d,%d,%d, %d,%d,%d,%d %d %d,%d": the AACR line plus the two CSI words. */
  const ChgStatsFmt2 := Layout([], DecInt, ChgStatsFmt1.more + [BlankSep(DecInt), Comma(DecInt)])

  /** "A:%d": the wireless adapter-type line. */
  const AdapterTypeFmt := Layout([Lit('A'), Lit(':')], DecInt, [])

  /** "D:%x,%x,%x,%x,%x, %x,%x": the wireless adapter-capabilities line. */
  const AdapterCapsFmt := Layout([Lit('D'), Lit(':')], HexInt,
    [Comma(HexInt), Comma(HexInt), Comma(HexInt), Comma(HexInt), CommaBlank(HexInt), Comma(HexInt)])

  /** "D:%x,%x %x,%x,%x,%x,%x": the PCA line, two adapter words then five receiver-state words. */
  const PcaFmt := Layout([Lit('D'), Lit(':')], HexInt,
    [Comma(HexInt), BlankSep(HexInt), Comma(HexInt), Comma(HexInt), Comma(HexInt), Comma(HexInt)])

  /** "D:%x,%x,%x,%x,%x,%x,%x": a PDO line of the charger-metrics log. */
  const PdoFmt := Layout([Lit('D'), Lit(':')], HexInt,
    [Comma(HexInt), Comma(HexInt), Comma(HexInt), Comma(HexInt), Comma(HexInt), Comma(HexInt)])

  /** "%d, %f,%d,%d, %d,%d,%d, %d,%d,%d, %d,%d,%d, %d,%d,%d": a voltage-tier line. */
  const TierFmt := Layout([], DecInt,
    [CommaBlank(FloatTok), Comma(DecInt), Comma(DecInt),
     CommaBlank(DecInt), Comma(DecInt), Comma(DecInt),
     CommaBlank(DecInt), Comma(DecInt), Comma(DecInt),
     CommaBlank(DecInt), Comma(DecInt), Comma(DecInt),
     CommaBlank(DecInt), Comma(DecInt), Comma(DecInt)])

  /** The directives of the fields, in order. */
  function FieldDirectives(more: seq<Field>): seq<Directive> {
    if more == [] then [] else more[0].sep + [more[0].conv] + FieldDirectives(more[1..])
  }

  /** The directive list a layout stands for. */
  function Directives(l: Layout): seq<Directive> {
    l.lead + [l.first] + FieldDirectives(l.more)
  }

  /** What sscanf converts from a line with a layout's format. */
  function ScanLayout(s: string, l: Layout): seq<Conv> {
    Scan(s, Directives(l))
  }

  /** The conversions of a layout's fields. */
  function FieldConvs(more: seq<Field>): (r: seq<Directive>)
    ensures |r| == |more| && forall i :: 0 <= i < |more| ==> r[i] == more[i].conv
  {
    seq(|more|, i requires 0 <= i < |more| => more[i].conv)
  }

  predicate NoConversions(s: seq<Directive>) {
    forall i :: 0 <= i < |s| ==> !IsConversion(s[i])
  }

  /** Only the first directive and the fields' last directives convert. */
  predicate WellFormed(l: Layout) {
    NoConversions(l.lead) && IsConversion(l.first) &&
    forall i :: 0 <= i < |l.more| ==> NoConversions(l.more[i].sep) && IsConversion(l.more[i].conv)
  }

  // ---------------------------------------------------------------------
  // Conversion slots of a layout.
  // ---------------------------------------------------------------------

  lemma {:induction false} SlotsAppend(f: seq<Directive>, g: seq<Directive>)
    ensures Slots(f + g) == Slots(f) + Slots(g)
    decreases |f|
  {
    if f == [] {
      assert f + g == g;
    } else {
      assert (f + g)[0] == f[0];
      assert (f + g)[1..] == f[1..] + g;
      SlotsAppend(f[1..], g);
    }
  }

  lemma {:induction false} NoSlots(s: seq<Directive>)
    requires NoConversions(s)
    ensures Slots(s) == []
    decreases |s|
  {
    if s != [] {
      NoSlots(s[1..]);
    }
  }

  lemma {:induction false} FieldSlots(more: seq<Field>)
    requires forall i :: 0 <= i < |more| ==> NoConversions(more[i].sep) && IsConversion(more[i].conv)
    ensures Slots(FieldDirectives(more)) == FieldConvs(more)
    decreases |more|
  {
    if more != [] {
      var f := more[0];
      FieldSlots(more[1..]);
      SlotsAppend(f.sep + [f.conv], FieldDirectives(more[1..]));
      SlotsAppend(f.sep, [f.conv]);
      NoSlots(f.sep);
      assert Slots([f.conv]) == [f.conv];
      assert FieldConvs(more) == [f.conv] + FieldConvs(more[1..]);
    }
  }

  /** A well-formed layout converts its first directive, then one value per field. */
  lemma LayoutSlots(l: Layout)
    requires WellFormed(l)
    ensures Slots(Directives(l)) == [l.first] + FieldConvs(l.more)
  {
    SlotsAppend(l.lead + [l.first], FieldDirectives(l.more));
    SlotsAppend(l.lead, [l.first]);
    NoSlots(l.lead);
    assert Slots([l.first]) == [l.first];
    FieldSlots(l.more);
  }

  lemma {:induction false} FieldDirectivesAppend(m1: seq<Field>, m2: seq<Field>)
    ensures FieldDirectives(m1 + m2) == FieldDirectives(m1) + FieldDirectives(m2)
    decreases |m1|
  {
    if m1 == [] {
      assert m1 + m2 == m2;
    } else {
      assert (m1 + m2)[0] == m1[0];
      assert (m1 + m2)[1..] == m1[1..] + m2;
      FieldDirectivesAppend(m1[1..], m2);
    }
  }

  /** Adding fields to a layout appends their directives to its format. */
  lemma Extend(lead: seq<Directive>, first: Directive, m1: seq<Field>, m2: seq<Field>)
    ensures Directives(Layout(lead, first, m1 + m2)) == Directives(Layout(lead, first, m1)) + FieldDirectives(m2)
  {
    FieldDirectivesAppend(m1, m2);
  }

  /** A well-formed layout ends in a conversion. */
  lemma {:induction false} EndsInConversion(l: Layout)
    requires WellFormed(l)
    ensures Directives(l) != [] && IsConversion(Directives(l)[|Directives(l)| - 1])
    decreases |l.more|
  {
    if l.more != [] {
      var n := |l.more|;
      var init := Layout(l.lead, l.first, l.more[..n - 1]);
      assert l.more == l.more[..n - 1] + [l.more[n - 1]];
      Extend(l.lead, l.first, l.more[..n - 1], [l.more[n - 1]]);
      assert FieldDirectives([l.more[n - 1]]) == l.more[n - 1].sep + [l.more[n - 1].conv];
    }
  }

  // ---------------------------------------------------------------------
  // Separation: the printed form of a layout scans back.
  // ---------------------------------------------------------------------

  /** Two separated formats stay separated when the join between them is. */
  lemma SeparatedAppend(f: seq<Directive>, g: seq<Directive>)
    requires Separated(f) && Separated(g)
    requires f != [] && g != [] && IsConversion(f[|f| - 1]) ==>
      g[0].Blank? || (g[0].Lit? && !IsNumberChar(g[0].c))
    requires f != [] && g != [] && f[|f| - 1].Blank? ==> !g[0].Blank?
    ensures Separated(f + g)
  {
    var h := f + g;
    forall i | 0 <= i < |h| - 1 && IsConversion(h[i])
      ensures h[i + 1].Blank? || (h[i + 1].Lit? && !IsNumberChar(h[i + 1].c))
    {
      if i < |f| - 1 {
        assert h[i] == f[i] && h[i + 1] == f[i + 1];
      } else if i == |f| - 1 {
        assert h[i + 1] == g[0];
      } else {
        assert h[i] == g[i - |f|] && h[i + 1] == g[i + 1 - |f|];
      }
    }
    forall i | 0 <= i < |h| - 1 && h[i].Blank?
      ensures !h[i + 1].Blank?
    {
      if i < |f| - 1 {
        assert h[i] == f[i] && h[i + 1] == f[i + 1];
      } else if i == |f| - 1 {
        assert h[i + 1] == g[0];
      } else {
        assert h[i] == g[i - |f|] && h[i + 1] == g[i + 1 - |f|];
      }
    }
    forall i | 0 <= i < |h| && h[i].Lit?
      ensures !IsSpace(h[i].c)
    {
      if i < |f| {
        assert h[i] == f[i];
      } else {
        assert h[i] == g[i - |f|];
      }
    }
  }

  /** A separator that ends a number and neither holds white-space literals nor two blanks in a row. */
  predicate GoodSep(sep: seq<Directive>) {
    sep != [] && (sep[0].Blank? || (sep[0].Lit? && !IsNumberChar(sep[0].c))) &&
    NoConversions(sep) && Separated(sep)
  }

  predicate SeparatedLayout(l: Layout) {
    WellFormed(l) && Separated(l.lead) && forall i :: 0 <= i < |l.more| ==> GoodSep(l.more[i].sep)
  }

  lemma {:induction false} FieldsSeparated(c: Directive, more: seq<Field>)
    requires IsConversion(c)
    requires forall i :: 0 <= i < |more| ==> GoodSep(more[i].sep) && IsConversion(more[i].conv)
    ensures Separated([c] + FieldDirectives(more))
    decreases |more|
  {
    if more == [] {
      assert [c] + FieldDirectives(more) == [c];
    } else {
      var f := more[0];
      FieldsSeparated(f.conv, more[1..]);
      SeparatedAppend([c], f.sep);
      var head := [c] + f.sep;
      assert head[|head| - 1] == f.sep[|f.sep| - 1];
      SeparatedAppend(head, [f.conv] + FieldDirectives(more[1..]));
      assert [c] + FieldDirectives(more) == head + ([f.conv] + FieldDirectives(more[1..]));
    }
  }

  /** A layout whose lead-in and separators are separated prints a separated format. */
  lemma LayoutSeparated(l: Layout)
    requires SeparatedLayout(l)
    ensures Separated(Directives(l))
  {
    FieldsSeparated(l.first, l.more);
    SeparatedAppend(l.lead, [l.first] + FieldDirectives(l.more));
    assert Directives(l) == l.lead + ([l.first] + FieldDirectives(l.more));
  }

  /** A layout whose conversions are all %d. */
  predicate DecLayout(l: Layout) {
    WellFormed(l) && l.first == DecInt && forall i :: 0 <= i < |l.more| ==> l.more[i].conv == DecInt
  }

  /** Any integers, one per conversion, can be printed with a %d layout. */
  lemma PrintableInts(l: Layout, xs: seq<int>)
    requires DecLayout(l) && |xs| == 1 + |l.more|
    ensures PrintableAll(Ints(xs), Directives(l))
  {
    LayoutSlots(l);
  }

  /**
   * Round trip for the reporter's %d formats: a line printed with the
   * format scans back to its integers, leaving the text that followed, as
   * long as that text does not continue the last number.
   */
  lemma RoundTrip(l: Layout, xs: seq<int>, tail: string)
    requires DecLayout(l) && SeparatedLayout(l) && |xs| == 1 + |l.more|
    requires tail == [] || !IsNumberChar(tail[0])
    ensures PrintableAll(Ints(xs), Directives(l)) &&
      Run(Render(Directives(l), Ints(xs)) + tail, Directives(l)) == Outcome(Ints(xs), Some(tail))
  {
    PrintableInts(l, xs);
    LayoutSeparated(l);
    EndsInConversion(l);
    RenderScan(Directives(l), Ints(xs), tail);
  }

  // ---------------------------------------------------------------------
  // The formats of the reporter.
  // ---------------------------------------------------------------------

  /** A field separated by ",", ", " or " ". */
  predicate StdField(f: Field) {
    (f.sep == [Lit(',')] || f.sep == [Lit(','), Blank] || f.sep == [Blank]) && IsConversion(f.conv)
  }

  /** A layout with a separated lead-in and only standard fields. */
  predicate StdLayout(l: Layout) {
    NoConversions(l.lead) && Separated(l.lead) && IsConversion(l.first) &&
    forall i :: 0 <= i < |l.more| ==> StdField(l.more[i])
  }

  lemma StdLayoutSeparated(l: Layout)
    requires StdLayout(l)
    ensures WellFormed(l) && SeparatedLayout(l)
  {
    forall i | 0 <= i < |l.more|
      ensures NoConversions(l.more[i].sep) && GoodSep(l.more[i].sep)
    {
      assert StdField(l.more[i]);
    }
  }

  /** A layout none of whose conversions is %f stores integers only. */
  lemma LayoutInts(l: Layout)
    requires WellFormed(l) && !l.first.FloatTok?
    requires forall i :: 0 <= i < |l.more| ==> !l.more[i].conv.FloatTok?
    ensures IntFormat(Directives(l))
    ensures |Slots(Directives(l))| == 1 + |l.more|
  {
    LayoutSlots(l);
  }

  /** The three charge-session formats: 7, 8 and 10 integers, each extending the previous one. */
  lemma ChgStatsFormats()
    ensures StdLayout(ChgStatsFmt0) && StdLayout(ChgStatsFmt1) && StdLayout(ChgStatsFmt2)
    ensures IntFormat(Directives(ChgStatsFmt0)) && |Slots(Directives(ChgStatsFmt0))| == 7
    ensures IntFormat(Directives(ChgStatsFmt1)) && |Slots(Directives(ChgStatsFmt1))| == 8
    ensures IntFormat(Directives(ChgStatsFmt2)) && |Slots(Directives(ChgStatsFmt2))| == 10
    ensures Directives(ChgStatsFmt1) == Directives(ChgStatsFmt0) + [Blank, DecInt]
    ensures Directives(ChgStatsFmt2) == Directives(ChgStatsFmt1) + [Blank, DecInt, Lit(','), DecInt]
  {
    ChgStatsInts(ChgStatsFmt0);
    ChgStatsInts(ChgStatsFmt1);
    ChgStatsInts(ChgStatsFmt2);
    AacrExtendsBaseline();
    CsiExtendsAacr();
  }

  lemma ChgStatsInts(l: Layout)
    requires StdLayout(l) && !l.first.FloatTok?
    requires forall i :: 0 <= i < |l.more| ==> !l.more[i].conv.FloatTok?
    ensures IntFormat(Directives(l)) && |Slots(Directives(l))| == 1 + |l.more|
  {
    StdLayoutSeparated(l);
    LayoutInts(l);
  }

  lemma AacrExtendsBaseline()
    ensures Directives(ChgStatsFmt1) == Directives(ChgStatsFmt0) + [Blank, DecInt]
  {
    Extend([], DecInt, ChgStatsFmt0.more, [BlankSep(DecInt)]);
    assert FieldDirectives([BlankSep(DecInt)]) == [Blank, DecInt];
  }

  lemma CsiExtendsAacr()
    ensures Directives(ChgStatsFmt2) == Directives(ChgStatsFmt1) + [Blank, DecInt, Lit(','), DecInt]
  {
    Extend([], DecInt, ChgStatsFmt1.more, [BlankSep(DecInt), Comma(DecInt)]);
    assert FieldDirectives([Comma(DecInt)]) == [Lit(','), DecInt];
    assert FieldDirectives([BlankSep(DecInt), Comma(DecInt)]) == [Blank, DecInt, Lit(','), DecInt];
  }

  /** A format of one or more integer conversions, as the wireless, PCA and PDO lines use. */
  predicate IntLayout(l: Layout, n: nat) {
    StdLayout(l) && IntFormat(Directives(l)) && |Slots(Directives(l))| == n
  }

  lemma AdapterTypeFormat()
    ensures IntLayout(AdapterTypeFmt, 1)
  {
    StdLayoutSeparated(AdapterTypeFmt);
    LayoutInts(AdapterTypeFmt);
  }

  lemma AdapterCapsFormat()
    ensures IntLayout(AdapterCapsFmt, 7)
  {
    assert StdLayout(AdapterCapsFmt);
    StdLayoutSeparated(AdapterCapsFmt);
    LayoutInts(AdapterCapsFmt);
  }

  lemma PcaFormat()
    ensures IntLayout(PcaFmt, 7)
  {
    assert StdLayout(PcaFmt);
    StdLayoutSeparated(PcaFmt);
    LayoutInts(PcaFmt);
  }

  lemma PdoFormat()
    ensures IntLayout(PdoFmt, 7)
  {
    assert StdLayout(PdoFmt);
    StdLayoutSeparated(PdoFmt);
    LayoutInts(PdoFmt);
  }

  /** The tier format: sixteen conversions, the second of them %f and the others %d. */
  lemma TierFormat()
    ensures StdLayout(TierFmt)
    ensures |Slots(Directives(TierFmt))| == 16
    ensures forall i :: 0 <= i < 16 ==> Slots(Directives(TierFmt))[i] == if i == 1 then FloatTok else DecInt
  {
    TierFields();
    TierShape(TierFmt);
  }

  lemma TierFields()
    ensures StdLayout(TierFmt) && TierFmt.first == DecInt && |TierFmt.more| == 15
    ensures forall i :: 0 <= i < 15 ==> TierFmt.more[i].conv == if i == 0 then FloatTok else DecInt
  {
  }

  lemma TierShape(l: Layout)
    requires StdLayout(l) && l.first == DecInt && |l.more| == 15
    requires forall i :: 0 <= i < 15 ==> l.more[i].conv == if i == 0 then FloatTok else DecInt
    ensures |Slots(Directives(l))| == 16
    ensures forall i :: 0 <= i < 16 ==> Slots(Directives(l))[i] == if i == 1 then FloatTok else DecInt
  {
    StdLayoutSeparated(l);
    LayoutSlots(l);
  }
}
