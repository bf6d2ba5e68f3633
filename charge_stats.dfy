/**
 * How ReportChargeStats assembles a charge-session record: the slots tmp[0..17]
 * and the number of them reported (fields_size), built from the head line
 * of the charge-stats log, the wireless adapter lines, the PCA line and the
 * charger-metrics log, in that order.
 */
module ChargeStats {
  import opened Wrappers
  import opened Scanf
  import opened Formats
  import opened Text
  import opened Atoms

  /** The slots of a charge-session record and how many of them are reported. */
  datatype Draft = Draft(tmp: seq<int>, fieldsSize: nat)

  /** Slots reported without wireless or PCA data: the baseline, AACR and CSI words. */
  const BaseFieldsSize := ChgFieldsSize - 7

  function Zeros(n: nat): (r: seq<int>)
    ensures |r| == n && forall i :: 0 <= i < n ==> r[i] == 0
  {
    seq(n, _ => 0)
  }

  /** The facts about the head formats that the fallback relies on. */
  lemma HeadFormatFacts()
    ensures IntFormat(Directives(ChgStatsFmt0)) && |Slots(Directives(ChgStatsFmt0))| == 7
    ensures IntFormat(Directives(ChgStatsFmt1)) && |Slots(Directives(ChgStatsFmt1))| == 8
    ensures IntFormat(Directives(ChgStatsFmt2)) && |Slots(Directives(ChgStatsFmt2))| == 10
    ensures Directives(ChgStatsFmt1) == Directives(ChgStatsFmt0) + [Blank, DecInt]
    ensures Directives(ChgStatsFmt2) == Directives(ChgStatsFmt1) + [Blank, DecInt, Lit(','), DecInt]
    ensures WellFormed(ChgStatsFmt0) && WellFormed(ChgStatsFmt1) && WellFormed(ChgStatsFmt2)
  {
    ChgStatsFormats();
    StdLayoutSeparated(ChgStatsFmt0);
    StdLayoutSeparated(ChgStatsFmt1);
    StdLayoutSeparated(ChgStatsFmt2);
  }

  /**
   * The slots after the head line, as the source's if-chain leaves them: the
   * CSI format is tried first, then the AACR format, then the baseline
   * format, each attempt storing what it converted over what the previous
   * attempt stored; None when even the baseline format does not convert all
   * seven values.
   */
  function HeadTmp(line: string): (r: Option<seq<int>>)
    ensures r.Some? ==> |r.value| == ChgFieldsSize
  {
    HeadFormatFacts();
    var c2 := ScanLayout(line, ChgStatsFmt2);
    var t2 := Store(Zeros(ChgFieldsSize), 0, IntsOf(c2));
    if |c2| == 10 then Some(t2)
    else
      var c1 := ScanLayout(line, ChgStatsFmt1);
      var t1 := Store(t2, 0, IntsOf(c1));
      if |c1| == 8 then Some(t1)
      else
        var c0 := ScanLayout(line, ChgStatsFmt0);
        var t0 := Store(t1, 0, IntsOf(c0));
        if |c0| == 7 then Some(t0) else None
  }

  /**
   * The wireless stage: a non-empty adapter-type line that converts its
   * value replaces slot 0 by the translated system mode, and only then is
   * the capabilities line scanned into slots 10 to 16; all seven words
   * extend the reported slots to all 17.
   */
  function WirelessStage(d: Draft, wlineAt: string, wlineAc: string, translate: int -> int): (r: Draft)
    requires |d.tmp| == ChgFieldsSize
    ensures |r.tmp| == ChgFieldsSize
  {
    if wlineAt == [] then d
    else
      AdapterTypeFormat();
      AdapterCapsFormat();
      var a := ScanLayout(wlineAt, AdapterTypeFmt);
      if |a| != 1 then d
      else
        var t := d.tmp[0 := translate(IntsOf(a)[0])];
        var c := ScanLayout(wlineAc, AdapterCapsFmt);
        Draft(Store(t, 10, IntsOf(c)), if |c| == 7 then ChgFieldsSize else d.fieldsSize)
  }

  /** Whether a PCA line converts all seven of its words. */
  predicate PcaParses(pcaLine: string) {
    pcaLine != [] && |ScanLayout(pcaLine, PcaFmt)| == 7
  }

  /** The words the PCA format stores: the two adapter words, then the five receiver-state words. */
  function PcaWords(pcaLine: string): seq<int> {
    IntsOf(ScanLayout(pcaLine, PcaFmt))
  }

  /**
   * The PCA stage: a PCA line with all seven words (two adapter words, five
   * receiver-state words) sets receiver-state words 2, 3, 4 and 1 into slots
   * 12, 13, 14 and 16 and reports all 17 slots; only when there is no
   * wireless adapter-type line does it also force the PPS adapter type and
   * set slots 10, 11 and 15.
   */
  function PcaStage(d: Draft, pcaLine: string, wlineAt: string, pps: int): (r: Draft)
    requires |d.tmp| == ChgFieldsSize
    ensures |r.tmp| == ChgFieldsSize
  {
    if !PcaParses(pcaLine) then d
    else
      var w := PcaWords(pcaLine);
      var t := d.tmp[12 := w[4]][13 := w[5]][14 := w[6]][16 := w[3]];
      Draft(if wlineAt == [] then t[0 := pps][10 := w[0]][11 := w[1]][15 := w[2]] else t, ChgFieldsSize)
  }

  /** The words of the first line that converts all seven PDO words. */
  function FirstPdo(lines: seq<string>): (r: Option<seq<int>>)
    ensures r.Some? ==> |r.value| == 7
  {
    PdoFormat();
    if lines == [] then None
    else
      var c := ScanLayout(lines[0], PdoFmt);
      if |c| == 7 then Some(IntsOf(c)) else FirstPdo(lines[1..])
  }

  /** The charger-metrics override: the first PDO line sets slot 15 to its APDO word and slot 16 to its PDO word. */
  function OverrideStage(tmp: seq<int>, gcharger: Option<string>): (r: seq<int>)
    requires |tmp| == ChgFieldsSize
    ensures |r| == ChgFieldsSize
  {
    if gcharger.None? then tmp
    else
      match FirstPdo(Lines(gcharger.value))
      case None => tmp
      case Some(w) => tmp[15 := w[1]][16 := w[6]]
  }

  /** The record ReportChargeStats reports, or None when the head line is dropped. */
  function ChargeDraft(line: string, wlineAt: string, wlineAc: string, pcaLine: string,
                       gcharger: Option<string>, translate: int -> int, pps: int): (r: Option<Draft>)
    ensures r.Some? <==> HeadTmp(line).Some?
    ensures r.Some? ==> |r.value.tmp| == ChgFieldsSize && r.value.fieldsSize <= ChgFieldsSize
  {
    match HeadTmp(line)
    case None => None
    case Some(t) => Some(Stages(t, wlineAt, wlineAc, pcaLine, gcharger, translate, pps))
  }

  /** The wireless, PCA and charger-metrics stages in turn, from the head slots. */
  function Stages(t: seq<int>, wlineAt: string, wlineAc: string, pcaLine: string,
                  gcharger: Option<string>, translate: int -> int, pps: int): (r: Draft)
    requires |t| == ChgFieldsSize
    ensures |r.tmp| == ChgFieldsSize && r.fieldsSize <= ChgFieldsSize
  {
    var w := WirelessStage(Draft(t, BaseFieldsSize), wlineAt, wlineAc, translate);
    var p := PcaStage(w, pcaLine, wlineAt, pps);
    Draft(OverrideStage(p.tmp, gcharger), p.fieldsSize)
  }

  /** The charge-stats atom of a record: its reported slots placed at their fields' positions. */
  function ChargeAtom(d: Draft, schema: Schema): VendorAtom
    requires ValidSchema(schema) && |d.tmp| == ChgFieldsSize && d.fieldsSize <= ChgFieldsSize
  {
    VendorAtom(ChargeStatsAtom,
      Place(ChgFieldsSize, ChargeTargets(schema)[..d.fieldsSize], IntValues(d.tmp[..d.fieldsSize])))
  }

  // ---------------------------------------------------------------------
  // The head line: format fallback.
  // ---------------------------------------------------------------------

  lemma IntsOfPrefix(cs: seq<Conv>, k: nat)
    requires k <= |cs|
    ensures IntsOf(cs[..k]) == IntsOf(cs)[..k]
  {
    assert forall i :: 0 <= i < k ==> cs[..k][i] == cs[i];
  }

  /** Storing a prefix of what is already stored changes nothing. */
  lemma StoreAgain(t: seq<int>, v: seq<int>, k: nat)
    requires |v| <= |t| && k <= |v|
    ensures Store(Store(t, 0, v), 0, v[..k]) == Store(t, 0, v)
  {
    var a := Store(t, 0, v);
    var b := Store(a, 0, v[..k]);
    forall i | 0 <= i < |t| ensures b[i] == a[i] {
      if i < k {
        assert v[..k][i] == v[i];
      }
    }
  }

  /**
   * The head line is kept exactly when the CSI format converts at least
   * seven values, and then the slots hold everything the CSI attempt
   * converted, even where a later, shorter attempt is the one that matched:
   * each attempt converts a prefix of what the CSI attempt converted.
   */
  lemma HeadFallback(line: string)
    ensures HeadTmp(line).Some? <==> |ScanLayout(line, ChgStatsFmt2)| >= 7
    ensures HeadTmp(line).Some? ==>
      HeadTmp(line).value == Store(Zeros(ChgFieldsSize), 0, IntsOf(ScanLayout(line, ChgStatsFmt2)))
  {
    HeadFormatFacts();
    EndsInConversion(ChgStatsFmt0);
    EndsInConversion(ChgStatsFmt1);
    var f0, f1 := Directives(ChgStatsFmt0), Directives(ChgStatsFmt1);
    ExtendedScan(line, f0, [Blank, DecInt]);
    ExtendedScan(line, f1, [Blank, DecInt, Lit(','), DecInt]);
    var c0, c1, c2 := ScanLayout(line, ChgStatsFmt0), ScanLayout(line, ChgStatsFmt1), ScanLayout(line, ChgStatsFmt2);
    var z := Zeros(ChgFieldsSize);
    var t2 := Store(z, 0, IntsOf(c2));
    if |c2| != 10 {
      IntsOfPrefix(c2, |c1|);
      StoreAgain(z, IntsOf(c2), |c1|);
      if |c1| != 8 {
        assert c1 == c2;
        IntsOfPrefix(c1, |c0|);
        StoreAgain(z, IntsOf(c1), |c0|);
      }
    }
  }

  /** "%d,%d,%d, %d,%d,%d,%d %d %d": the CSI format without its last field. */
  const NineValuesFmt := Layout([], DecInt, ChgStatsFmt1.more + [BlankSep(DecInt)])

  lemma DecStd(l: Layout)
    requires StdLayout(l) && l.first == DecInt
    requires forall i :: 0 <= i < |l.more| ==> l.more[i].conv == DecInt
    ensures DecLayout(l) && SeparatedLayout(l)
  {
    StdLayoutSeparated(l);
  }

  lemma BaselineLayout()
    ensures DecLayout(ChgStatsFmt0) && SeparatedLayout(ChgStatsFmt0)
  {
    DecStd(ChgStatsFmt0);
  }

  lemma AacrLayout()
    ensures DecLayout(ChgStatsFmt1) && SeparatedLayout(ChgStatsFmt1)
  {
    DecStd(ChgStatsFmt1);
  }

  lemma CsiLayout()
    ensures DecLayout(ChgStatsFmt2) && SeparatedLayout(ChgStatsFmt2)
  {
    DecStd(ChgStatsFmt2);
  }

  lemma NineValuesLayout()
    ensures DecLayout(NineValuesFmt) && SeparatedLayout(NineValuesFmt)
    ensures Directives(ChgStatsFmt2) == Directives(NineValuesFmt) + [Lit(','), DecInt]
  {
    DecStd(NineValuesFmt);
    assert ChgStatsFmt2.more == NineValuesFmt.more + [Comma(DecInt)];
    Extend([], DecInt, NineValuesFmt.more, [Comma(DecInt)]);
    assert FieldDirectives([Comma(DecInt)]) == [Lit(','), DecInt];
  }

  lemma BaselineNesting()
    ensures Directives(ChgStatsFmt2) == Directives(ChgStatsFmt0) + [Blank, DecInt, Blank, DecInt, Lit(','), DecInt]
  {
    HeadFormatFacts();
    var f0 := Directives(ChgStatsFmt0);
    assert (f0 + [Blank, DecInt]) + [Blank, DecInt, Lit(','), DecInt] == f0 + [Blank, DecInt, Blank, DecInt, Lit(','), DecInt];
  }

  lemma StoreZeros(xs: seq<int>)
    requires |xs| <= ChgFieldsSize
    ensures Store(Zeros(ChgFieldsSize), 0, xs) == xs + Zeros(ChgFieldsSize - |xs|)
  {
  }

  /** A CSI line is read in full: its ten values fill slots 0 to 9. */
  lemma CsiLine(xs: seq<int>, tail: string)
    requires |xs| == 10 && (tail == [] || !IsNumberChar(tail[0]))
    ensures PrintableAll(Ints(xs), Directives(ChgStatsFmt2)) &&
      HeadTmp(Render(Directives(ChgStatsFmt2), Ints(xs)) + tail) == Some(xs + Zeros(7))
  {
    CsiLayout();
    RoundTrip(ChgStatsFmt2, xs, tail);
    StoreZeros(xs);
  }

  /**
   * An AACR line, followed by no further integer, falls back from the CSI
   * format to the AACR format: its eight values fill slots 0 to 7 and the
   * CSI slots stay zero.
   */
  lemma AacrLine(xs: seq<int>, tail: string)
    requires |xs| == 8 && (tail == [] || !IsNumberChar(tail[0])) && ReadDec(SkipSpaces(tail)).None?
    ensures PrintableAll(Ints(xs), Directives(ChgStatsFmt1)) &&
      HeadTmp(Render(Directives(ChgStatsFmt1), Ints(xs)) + tail) == Some(xs + Zeros(9))
  {
    AacrLayout();
    HeadFormatFacts();
    RoundTrip(ChgStatsFmt1, xs, tail);
    var line := Render(Directives(ChgStatsFmt1), Ints(xs)) + tail;
    RunAppend(line, Directives(ChgStatsFmt1), [Blank, DecInt, Lit(','), DecInt]);
    NoFurtherInt(tail, [Blank, DecInt, Lit(','), DecInt]);
    assert ScanLayout(line, ChgStatsFmt2) == Ints(xs) + [];
    HeadFallback(line);
    StoreZeros(xs);
  }

  /**
   * A baseline line, followed by no further integer, falls back to the
   * baseline format: its seven values fill slots 0 to 6 and the rest stay zero.
   */
  lemma BaselineLine(xs: seq<int>, tail: string)
    requires |xs| == 7 && (tail == [] || !IsNumberChar(tail[0])) && ReadDec(SkipSpaces(tail)).None?
    ensures PrintableAll(Ints(xs), Directives(ChgStatsFmt0)) &&
      HeadTmp(Render(Directives(ChgStatsFmt0), Ints(xs)) + tail) == Some(xs + Zeros(10))
  {
    BaselineLayout();
    RoundTrip(ChgStatsFmt0, xs, tail);
    var line := Render(Directives(ChgStatsFmt0), Ints(xs)) + tail;
    BaselineScan(line, xs, tail);
    HeadFallback(line);
    StoreZeros(xs);
  }

  lemma BaselineScan(line: string, xs: seq<int>, tail: string)
    requires ReadDec(SkipSpaces(tail)).None?
    requires Run(line, Directives(ChgStatsFmt0)) == Outcome(Ints(xs), Some(tail))
    ensures ScanLayout(line, ChgStatsFmt2) == Ints(xs)
  {
    var g := [Blank, DecInt, Blank, DecInt, Lit(','), DecInt];
    BaselineNesting();
    RunAppend(line, Directives(ChgStatsFmt0), g);
    NoFurtherInt(tail, g);
    assert ScanLayout(line, ChgStatsFmt2) == Ints(xs) + [];
  }

  /**
   * A line with nine values: the CSI format converts nine of its ten values
   * and fails, the AACR format then matches, and slot 8 still holds the
   * ninth value that the failed CSI attempt stored.
   */
  lemma NineValueLine(xs: seq<int>, tail: string)
    requires |xs| == 9 && (tail == [] || (!IsNumberChar(tail[0]) && tail[0] != ','))
    ensures PrintableAll(Ints(xs), Directives(NineValuesFmt))
    ensures var line := Render(Directives(NineValuesFmt), Ints(xs)) + tail;
      |ScanLayout(line, ChgStatsFmt2)| == 9 && |ScanLayout(line, ChgStatsFmt1)| == 8 &&
      HeadTmp(line) == Some(xs + Zeros(8))
  {
    NineValuesLayout();
    RoundTrip(NineValuesFmt, xs, tail);
    var line := Render(Directives(NineValuesFmt), Ints(xs)) + tail;
    NineScan(line, xs, tail);
    NineHead(line, xs);
  }

  /** The CSI format stops at the missing tenth value of a nine-value line. */
  lemma NineScan(line: string, xs: seq<int>, tail: string)
    requires tail == [] || (!IsNumberChar(tail[0]) && tail[0] != ',')
    requires Run(line, Directives(NineValuesFmt)) == Outcome(Ints(xs), Some(tail))
    ensures ScanLayout(line, ChgStatsFmt2) == Ints(xs)
  {
    NineValuesLayout();
    RunAppend(line, Directives(NineValuesFmt), [Lit(','), DecInt]);
    assert Run(tail, [Lit(','), DecInt]).convs == [];
    assert ScanLayout(line, ChgStatsFmt2) == Ints(xs) + [];
  }

  /** Nine CSI conversions: the AACR format matches and the slots keep all nine values. */
  lemma NineHead(line: string, xs: seq<int>)
    requires |xs| == 9 && ScanLayout(line, ChgStatsFmt2) == Ints(xs)
    ensures |ScanLayout(line, ChgStatsFmt1)| == 8 && HeadTmp(line) == Some(xs + Zeros(8))
  {
    HeadFormatFacts();
    EndsInConversion(ChgStatsFmt1);
    ExtendedScan(line, Directives(ChgStatsFmt1), [Blank, DecInt, Lit(','), DecInt]);
    HeadFallback(line);
    assert HeadTmp(line).value == Store(Zeros(ChgFieldsSize), 0, xs);
    StoreZeros(xs);
  }

  /** A layout without a lead-in whose first field is comma-separated starts with a conversion and a comma. */
  lemma CommaStart(l: Layout)
    requires l.lead == [] && l.more != [] && l.more[0].sep == [Lit(',')]
    ensures Directives(l) == [l.first, Lit(',')] + ([l.more[0].conv] + FieldDirectives(l.more[1..]))
  {
  }

  /** A lone "0" converts one integer and then misses the comma. */
  lemma ScanZero(g: seq<Directive>)
    ensures Run("0", [DecInt, Lit(',')] + g).convs == [IntConv(0)]
  {
    var f := [DecInt, Lit(',')] + g;
    assert f[1..] == [Lit(',')] + g;
    assert SkipSpaces("0") == "0";
    assert DigitRun("0"[1..], 10) == 0;
    assert "0"[..1] == "0" && Value("0", 10) == 0;
    assert ReadDec("0") == Some((0, ""));
    assert Step("0", DecInt) == Some(([IntConv(0)], ""));
  }

  /** A charge-stats log cleared to "0" has no head line to report. */
  lemma ClearedHead()
    ensures HeadTmp("0").None?
  {
    assert ChgStatsFmt2.more[0] == Comma(DecInt);
    CommaStart(ChgStatsFmt2);
    ScanZero([DecInt] + FieldDirectives(ChgStatsFmt2.more[1..]));
    HeadFallback("0");
  }

  // ---------------------------------------------------------------------
  // The wireless, PCA and charger-metrics stages.
  // ---------------------------------------------------------------------

  /** Whether the adapter-type line converts its value and the capabilities line all seven words. */
  predicate WirelessComplete(wlineAt: string, wlineAc: string) {
    wlineAt != [] && |ScanLayout(wlineAt, AdapterTypeFmt)| == 1 && |ScanLayout(wlineAc, AdapterCapsFmt)| == 7
  }

  /** Whether the charger-metrics log leaves slots 15 and 16 alone. */
  predicate NoOverride(gcharger: Option<string>) {
    gcharger.None? || FirstPdo(Lines(gcharger.value)).None?
  }

  /**
   * A converted adapter-type line sets slot 0 to the translated system mode
   * and stores the capability words it converted, even when there are fewer
   * than seven, into slots 10 onwards; every other slot is kept.
   */
  lemma WirelessSlots(d: Draft, wlineAt: string, wlineAc: string, translate: int -> int)
    requires |d.tmp| == ChgFieldsSize
    requires wlineAt != [] && |ScanLayout(wlineAt, AdapterTypeFmt)| == 1
    ensures var r := WirelessStage(d, wlineAt, wlineAc, translate);
      var a := ScanLayout(wlineAt, AdapterTypeFmt);
      var c := IntsOf(ScanLayout(wlineAc, AdapterCapsFmt));
      |c| <= 7 &&
      r.tmp[0] == translate(IntsOf(a)[0]) &&
      (forall i :: 10 <= i < 10 + |c| ==> r.tmp[i] == c[i - 10]) &&
      (forall i :: 0 < i < ChgFieldsSize && !(10 <= i < 10 + |c|) ==> r.tmp[i] == d.tmp[i]) &&
      r.fieldsSize == if |c| == 7 then ChgFieldsSize else d.fieldsSize
  {
    AdapterCapsFormat();
  }

  /** Without an adapter-type line that converts, the capabilities line has no effect on the record. */
  lemma WirelessIgnored(line: string, wlineAt: string, wlineAc: string, wlineAc': string, pcaLine: string,
                        gcharger: Option<string>, translate: int -> int, pps: int)
    requires wlineAt == [] || |ScanLayout(wlineAt, AdapterTypeFmt)| != 1
    ensures ChargeDraft(line, wlineAt, wlineAc, pcaLine, gcharger, translate, pps)
         == ChargeDraft(line, wlineAt, wlineAc', pcaLine, gcharger, translate, pps)
  {
  }

  /**
   * All 17 slots are reported exactly when the wireless lines are complete
   * or the PCA line parses; otherwise the ten head slots are.
   */
  lemma ChargeSize(line: string, wlineAt: string, wlineAc: string, pcaLine: string,
                   gcharger: Option<string>, translate: int -> int, pps: int)
    requires ChargeDraft(line, wlineAt, wlineAc, pcaLine, gcharger, translate, pps).Some?
    ensures ChargeDraft(line, wlineAt, wlineAc, pcaLine, gcharger, translate, pps).value.fieldsSize ==
      if WirelessComplete(wlineAt, wlineAc) || PcaParses(pcaLine) then ChgFieldsSize else BaseFieldsSize
  {
  }

  /**
   * A parsed PCA line sets slots 12, 13 and 14 to receiver-state words 2, 3
   * and 4, and slot 16 to word 1 unless the charger-metrics log overrides it.
   */
  lemma PcaPrecedence(line: string, wlineAt: string, wlineAc: string, pcaLine: string,
                      gcharger: Option<string>, translate: int -> int, pps: int)
    requires PcaParses(pcaLine)
    requires ChargeDraft(line, wlineAt, wlineAc, pcaLine, gcharger, translate, pps).Some?
    ensures var r := ChargeDraft(line, wlineAt, wlineAc, pcaLine, gcharger, translate, pps).value.tmp;
      var w := PcaWords(pcaLine);
      |w| == 7 && r[12] == w[4] && r[13] == w[5] && r[14] == w[6] &&
      (NoOverride(gcharger) ==> r[16] == w[3])
  {
    var t := HeadTmp(line).value;
    assert ChargeDraft(line, wlineAt, wlineAc, pcaLine, gcharger, translate, pps).value
        == Stages(t, wlineAt, wlineAc, pcaLine, gcharger, translate, pps);
    var wd := WirelessStage(Draft(t, BaseFieldsSize), wlineAt, wlineAc, translate);
    var p := PcaStage(wd, pcaLine, wlineAt, pps);
    PcaStageSlots(wd, pcaLine, wlineAt, pps);
    OverrideSlotsKept(p.tmp, gcharger);
  }

  /**
   * Without an adapter-type line, a parsed PCA line also sets slot 0 to the
   * PPS adapter type, slots 10 and 11 to its adapter words, and slot 15 to
   * receiver-state word 0 unless the charger-metrics log overrides it.
   */
  lemma PcaWithoutWireless(line: string, wlineAc: string, pcaLine: string,
                           gcharger: Option<string>, translate: int -> int, pps: int)
    requires PcaParses(pcaLine)
    requires ChargeDraft(line, [], wlineAc, pcaLine, gcharger, translate, pps).Some?
    ensures var r := ChargeDraft(line, [], wlineAc, pcaLine, gcharger, translate, pps).value.tmp;
      var w := PcaWords(pcaLine);
      |w| == 7 && r[0] == pps && r[10] == w[0] && r[11] == w[1] && (NoOverride(gcharger) ==> r[15] == w[2])
  {
    var t := HeadTmp(line).value;
    assert ChargeDraft(line, [], wlineAc, pcaLine, gcharger, translate, pps).value
        == Stages(t, [], wlineAc, pcaLine, gcharger, translate, pps);
    var wd := WirelessStage(Draft(t, BaseFieldsSize), [], wlineAc, translate);
    var p := PcaStage(wd, pcaLine, [], pps);
    PcaStageSlots(wd, pcaLine, [], pps);
    OverrideSlotsKept(p.tmp, gcharger);
  }

  lemma PcaStageSlots(d: Draft, pcaLine: string, wlineAt: string, pps: int)
    requires |d.tmp| == ChgFieldsSize && PcaParses(pcaLine)
    ensures var r := PcaStage(d, pcaLine, wlineAt, pps).tmp;
      var w := PcaWords(pcaLine);
      |w| == 7 && r[12] == w[4] && r[13] == w[5] && r[14] == w[6] && r[16] == w[3] &&
      (wlineAt == [] ==> r[0] == pps && r[10] == w[0] && r[11] == w[1] && r[15] == w[2])
  {
  }

  /**
   * The slots the PCA stage leaves alone: a PCA line that does not convert
   * all seven words changes nothing, and a converted one keeps the head
   * slots 1 to 9 always, and also slots 0, 10, 11 and 15 beside a wireless
   * adapter-type line.
   */
  lemma PcaStageFrame(d: Draft, pcaLine: string, wlineAt: string, pps: int)
    requires |d.tmp| == ChgFieldsSize
    ensures !PcaParses(pcaLine) ==> PcaStage(d, pcaLine, wlineAt, pps) == d
    ensures PcaParses(pcaLine) ==> PcaStage(d, pcaLine, wlineAt, pps).fieldsSize == ChgFieldsSize
    ensures forall i :: 1 <= i < 10 ==> PcaStage(d, pcaLine, wlineAt, pps).tmp[i] == d.tmp[i]
    ensures wlineAt != [] ==> forall i :: i in {0, 10, 11, 15} ==> PcaStage(d, pcaLine, wlineAt, pps).tmp[i] == d.tmp[i]
  {
  }

  lemma OverrideSlotsKept(tmp: seq<int>, gcharger: Option<string>)
    requires |tmp| == ChgFieldsSize
    ensures forall i :: 0 <= i < ChgFieldsSize && i != 15 && i != 16 ==> OverrideStage(tmp, gcharger)[i] == tmp[i]
    ensures NoOverride(gcharger) ==> OverrideStage(tmp, gcharger) == tmp
  {
  }

  /**
   * With an adapter-type line, a parsed PCA line changes only slots 12, 13,
   * 14 and 16: every other slot is what it would be without the PCA line,
   * so the wireless words survive there.
   */
  lemma PcaBesideWireless(line: string, wlineAt: string, wlineAc: string, pcaLine: string,
                          gcharger: Option<string>, translate: int -> int, pps: int)
    requires wlineAt != []
    requires ChargeDraft(line, wlineAt, wlineAc, pcaLine, gcharger, translate, pps).Some?
    ensures ChargeDraft(line, wlineAt, wlineAc, [], gcharger, translate, pps).Some?
    ensures var r := ChargeDraft(line, wlineAt, wlineAc, pcaLine, gcharger, translate, pps).value.tmp;
      var r' := ChargeDraft(line, wlineAt, wlineAc, [], gcharger, translate, pps).value.tmp;
      forall i :: 0 <= i < ChgFieldsSize && i != 12 && i != 13 && i != 14 && i != 16 ==> r[i] == r'[i]
  {
    var t := HeadTmp(line).value;
    assert ChargeDraft(line, wlineAt, wlineAc, pcaLine, gcharger, translate, pps).value
        == Stages(t, wlineAt, wlineAc, pcaLine, gcharger, translate, pps);
    assert ChargeDraft(line, wlineAt, wlineAc, [], gcharger, translate, pps).value
        == Stages(t, wlineAt, wlineAc, [], gcharger, translate, pps);
    StagesBesideWireless(t, wlineAt, wlineAc, pcaLine, gcharger, translate, pps);
  }

  lemma StagesBesideWireless(t: seq<int>, wlineAt: string, wlineAc: string, pcaLine: string,
                             gcharger: Option<string>, translate: int -> int, pps: int)
    requires |t| == ChgFieldsSize && wlineAt != []
    ensures var r := Stages(t, wlineAt, wlineAc, pcaLine, gcharger, translate, pps).tmp;
      var r' := Stages(t, wlineAt, wlineAc, [], gcharger, translate, pps).tmp;
      forall i :: 0 <= i < ChgFieldsSize && i != 12 && i != 13 && i != 14 && i != 16 ==> r[i] == r'[i]
  {
    var wd := WirelessStage(Draft(t, BaseFieldsSize), wlineAt, wlineAc, translate);
    var p := PcaStage(wd, pcaLine, wlineAt, pps);
    assert PcaStage(wd, [], wlineAt, pps) == wd;
    PcaKeepsWireless(wd, pcaLine, wlineAt, pps);
    OverrideAgrees(p.tmp, wd.tmp, gcharger);
  }

  lemma PcaKeepsWireless(d: Draft, pcaLine: string, wlineAt: string, pps: int)
    requires |d.tmp| == ChgFieldsSize && wlineAt != []
    ensures var r := PcaStage(d, pcaLine, wlineAt, pps).tmp;
      forall i :: 0 <= i < ChgFieldsSize && i != 12 && i != 13 && i != 14 && i != 16 ==> r[i] == d.tmp[i]
  {
  }

  /** The override writes the same words whatever the slots were, so slots that agreed before still agree after it. */
  lemma OverrideAgrees(t: seq<int>, t': seq<int>, gcharger: Option<string>)
    requires |t| == ChgFieldsSize && |t'| == ChgFieldsSize
    ensures forall i :: 0 <= i < ChgFieldsSize && t[i] == t'[i] ==> OverrideStage(t, gcharger)[i] == OverrideStage(t', gcharger)[i]
  {
  }

  /**
   * The first line of the charger-metrics log with all seven PDO words sets
   * slot 15 to its APDO word and slot 16 to its PDO word; nothing else in
   * the record depends on the log.
   */
  lemma OverrideSlots(line: string, wlineAt: string, wlineAc: string, pcaLine: string,
                      gcharger: Option<string>, translate: int -> int, pps: int)
    requires !NoOverride(gcharger)
    requires ChargeDraft(line, wlineAt, wlineAc, pcaLine, gcharger, translate, pps).Some?
    ensures var r := ChargeDraft(line, wlineAt, wlineAc, pcaLine, gcharger, translate, pps).value;
      var r' := ChargeDraft(line, wlineAt, wlineAc, pcaLine, None, translate, pps).value;
      var w := FirstPdo(Lines(gcharger.value)).value;
      r.tmp[15] == w[1] && r.tmp[16] == w[6] && r.fieldsSize == r'.fieldsSize &&
      forall i :: 0 <= i < ChgFieldsSize && i != 15 && i != 16 ==> r.tmp[i] == r'.tmp[i]
  {
  }

  /** Whether a charger-metrics line converts all seven PDO words. */
  predicate PdoParses(line: string) {
    |ScanLayout(line, PdoFmt)| == 7
  }

  /**
   * The override comes from the first parsing line of the log: a later line
   * is never consulted once one has parsed, and there is one exactly when
   * some line parses.
   */
  lemma {:induction false} FirstPdoFirst(lines: seq<string>)
    ensures FirstPdo(lines).Some? <==> exists i :: 0 <= i < |lines| && PdoParses(lines[i])
    ensures FirstPdo(lines).Some? ==>
      (exists i :: 0 <= i < |lines| && PdoParses(lines[i]) &&
         FirstPdo(lines).value == IntsOf(ScanLayout(lines[i], PdoFmt)) &&
         forall j :: 0 <= j < i ==> !PdoParses(lines[j]))
  {
    if lines != [] {
      FirstPdoFirst(lines[1..]);
      if !PdoParses(lines[0]) && FirstPdo(lines).Some? {
        var i :| 0 <= i < |lines[1..]| && PdoParses(lines[1..][i]) &&
          FirstPdo(lines[1..]).value == IntsOf(ScanLayout(lines[1..][i], PdoFmt)) &&
          forall j :: 0 <= j < i ==> !PdoParses(lines[1..][j]);
        assert PdoParses(lines[i + 1]);
        forall j | 0 <= j < i + 1 ensures !PdoParses(lines[j]) {
          if j > 0 { assert lines[j] == lines[1..][j - 1]; }
        }
      }
      if exists i :: 0 <= i < |lines| && PdoParses(lines[i]) {
        var i :| 0 <= i < |lines| && PdoParses(lines[i]);
        if i > 0 { assert lines[1..][i - 1] == lines[i]; }
      }
    }
  }

  /** Lines after the first parsing one do not change the override. */
  lemma {:induction false} FirstPdoAppend(a: seq<string>, b: seq<string>)
    requires FirstPdo(a).Some?
    ensures FirstPdo(a + b) == FirstPdo(a)
  {
    assert (a + b)[0] == a[0];
    if !PdoParses(a[0]) {
      assert (a + b)[1..] == a[1..] + b;
      FirstPdoAppend(a[1..], b);
    }
  }

  // ---------------------------------------------------------------------
  // The atom.
  // ---------------------------------------------------------------------

  /**
   * The charge-stats atom holds slot i at the position of field i for every
   * reported slot, and the default value at the position of every field
   * that is not reported.
   */
  lemma ChargeAtomValues(d: Draft, schema: Schema)
    requires ValidSchema(schema) && |d.tmp| == ChgFieldsSize && d.fieldsSize <= ChgFieldsSize
    ensures var a := ChargeAtom(d, schema);
      var t := ChargeTargets(schema);
      a.atomId == ChargeStatsAtom && |a.values| == ChgFieldsSize &&
      (forall i :: 0 <= i < d.fieldsSize ==> a.values[t[i]] == IntValue(d.tmp[i])) &&
      (forall i :: d.fieldsSize <= i < ChgFieldsSize ==> a.values[t[i]] == Unset)
  {
    var t := ChargeTargets(schema);
    var k := d.fieldsSize;
    PrefixTargets(t, ChgFieldsSize, k);
    PlaceAt(ChgFieldsSize, t[..k], IntValues(d.tmp[..k]));
  }
}
