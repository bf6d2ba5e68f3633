/**
 * How ReportVoltageTierStats turns one voltage-tier line into a
 * voltage-tier atom: sixteen conversions, the second of them the state of
 * charge as a float, and, for lines of the primary log while a wireless
 * session is present, four figures from the wireless calculator.
 */
module TierStats {
  import opened Wrappers
  import opened Scanf
  import opened Formats
  import opened Atoms

  /** The figures the wireless calculator derives for a tier: adapter power out (min, average, max) and operating frequency. */
  datatype WirelessPower = WirelessPower(poutMin: int, poutAvg: int, poutMax: int, ofFreq: int)

  /** One call of the wireless calculator: its figures and its tier state of charge afterwards. */
  datatype Calculation = Calculation(power: WirelessPower, tierSoc: int)

  /**
   * The wireless calculator, whose code is not part of this model: from its
   * current tier state of charge, the tier's state-of-charge lexeme and the
   * wireless log, its figures and its next tier state of charge.
   */
  type Calculator = (int, string, string) -> Calculation

  /** Fields reported only with wireless figures. */
  const WlcTierFieldsSize := 4

  /** Fields reported without wireless figures. */
  const BaseTierFieldsSize := VtierFieldsSize - WlcTierFieldsSize

  function TierScan(line: string): seq<Conv> {
    ScanLayout(line, TierFmt)
  }

  /** Whether a tier line converts all sixteen values; any other line is ignored. */
  predicate TierParses(line: string) {
    |TierScan(line)| == 16
  }

  /** A converted tier line holds a float in its second conversion and integers in all the others. */
  lemma TierConvs(line: string)
    requires TierParses(line)
    ensures TierScan(line)[1].FloatConv?
    ensures forall i :: 0 <= i < 16 && i != 1 ==> TierScan(line)[i].IntConv?
  {
    TierScanKinds(line);
  }

  /** Whatever a tier line converts, only its second conversion can be a float. */
  lemma TierScanKinds(line: string)
    ensures |TierScan(line)| <= 16
    ensures forall i :: 0 <= i < |TierScan(line)| ==> (TierScan(line)[i].FloatConv? <==> i == 1)
  {
    TierFormat();
    KindsBySlot(line, Directives(TierFmt));
  }

  /** With the tier's slots, whatever a format converts has a float exactly in its second conversion. */
  lemma KindsBySlot(line: string, fmt: seq<Directive>)
    requires |Slots(fmt)| == 16
    requires forall i :: 0 <= i < 16 ==> Slots(fmt)[i] == if i == 1 then FloatTok else DecInt
    ensures |Scan(line, fmt)| <= 16
    ensures forall i :: 0 <= i < |Scan(line, fmt)| ==> (Scan(line, fmt)[i].FloatConv? <==> i == 1)
  {
    RunFits(line, fmt);
  }

  /** The wireless figures as the four slots after the tier's own values; zero without them. */
  function PowerSlots(power: Option<WirelessPower>): (r: seq<int>)
    ensures |r| == WlcTierFieldsSize
  {
    match power
    case None => [0, 0, 0, 0]
    case Some(p) => [p.poutMin, p.poutAvg, p.poutMax, p.ofFreq]
  }

  /**
   * The slots tmp[0..19]: every converted integer, leaving out the state of
   * charge, which is kept apart; then the wireless slots.
   */
  function TierTmp(cs: seq<Conv>, power: Option<WirelessPower>): (r: seq<int>)
    requires |cs| == 16
    ensures |r| == VtierFieldsSize - 1
    ensures r[0] == IntsOf(cs)[0]
    ensures forall j :: 1 <= j < 15 ==> r[j] == IntsOf(cs)[j + 1]
    ensures forall j :: 15 <= j < 19 ==> r[j] == PowerSlots(power)[j - 15]
  {
    var ints := IntsOf(cs);
    [ints[0]] + ints[2..] + PowerSlots(power)
  }

  /**
   * The values reported, in field order: slot 0 as an integer, the state of
   * charge as a float, then slot i - 1 for each further reported field i.
   */
  function TierFieldValues(soc: string, tmp: seq<int>, size: nat): (r: seq<AtomValue>)
    requires |tmp| == VtierFieldsSize - 1 && 2 <= size <= VtierFieldsSize
    ensures |r| == size && r[0] == IntValue(tmp[0]) && r[1] == FloatValue(soc)
    ensures forall i :: 2 <= i < size ==> r[i] == IntValue(tmp[i - 1])
  {
    [IntValue(tmp[0]), FloatValue(soc)] + IntValues(tmp[1..size - 1])
  }

  /** What one ReportVoltageTierStats call leaves: the atom reported, if any, and the calculator's tier state of charge. */
  datatype TierOutcome = TierOutcome(atom: Option<VendorAtom>, tierSoc: int)

  /**
   * ReportVoltageTierStats on one line: nothing for a line that does not
   * convert all sixteen values; otherwise an atom of 16 fields, or of all
   * 20 with the calculator's figures when a wireless session is present.
   */
  function TierReport(line: string, hasWireless: bool, wfile: string, wlc: Calculator,
                      tierSoc: int, schema: Schema): (r: TierOutcome)
    requires ValidSchema(schema)
    ensures r.atom.Some? <==> TierParses(line)
    ensures r.atom.Some? ==> r.atom.value.atomId == VoltageTierStatsAtom && |r.atom.value.values| == VtierFieldsSize
    ensures !hasWireless ==> r.tierSoc == tierSoc
  {
    if !TierParses(line) then TierOutcome(None, tierSoc)
    else
      TierConvs(line);
      TierKept(TierScan(line), hasWireless, wfile, wlc, tierSoc, schema)
  }

  /** The outcome for the sixteen conversions of a kept line. */
  function TierKept(cs: seq<Conv>, hasWireless: bool, wfile: string, wlc: Calculator,
                    tierSoc: int, schema: Schema): (r: TierOutcome)
    requires ValidSchema(schema) && |cs| == 16 && cs[1].FloatConv?
    ensures r.atom.Some? && r.atom.value.atomId == VoltageTierStatsAtom && |r.atom.value.values| == VtierFieldsSize
    ensures !hasWireless ==> r.tierSoc == tierSoc
  {
    var size := if hasWireless then VtierFieldsSize else BaseTierFieldsSize;
    var c := wlc(tierSoc, cs[1].lexeme, wfile);
    var tmp := TierTmp(cs, if hasWireless then Some(c.power) else None);
    PrefixTargets(TierTargets(schema), VtierFieldsSize, size);
    var values := Place(VtierFieldsSize, TierTargets(schema)[..size], TierFieldValues(cs[1].lexeme, tmp, size));
    TierOutcome(Some(VendorAtom(VoltageTierStatsAtom, values)), if hasWireless then c.tierSoc else tierSoc)
  }

  /** The field values of a kept line, in terms of its conversions and the wireless figures. */
  lemma TierValuesAt(cs: seq<Conv>, power: Option<WirelessPower>, size: nat)
    requires |cs| == 16 && cs[1].FloatConv?
    requires size == if power.Some? then VtierFieldsSize else BaseTierFieldsSize
    ensures var v := TierFieldValues(cs[1].lexeme, TierTmp(cs, power), size);
      v[0] == IntValue(IntsOf(cs)[0]) && v[1] == FloatValue(cs[1].lexeme) &&
      (forall i :: 2 <= i < 16 ==> v[i] == IntValue(IntsOf(cs)[i])) &&
      (power.Some? ==> v[16] == IntValue(power.value.poutMin) && v[17] == IntValue(power.value.poutAvg) &&
                       v[18] == IntValue(power.value.poutMax) && v[19] == IntValue(power.value.ofFreq))
  {
  }

  /** Placing the values of the first size fields, in terms of the fields. */
  lemma PlacedFields(t: seq<int>, vals: seq<AtomValue>)
    requires |t| == VtierFieldsSize && InRange(t, VtierFieldsSize) && Distinct(t)
    requires |vals| <= VtierFieldsSize
    ensures InRange(t[..|vals|], VtierFieldsSize)
    ensures var a := Place(VtierFieldsSize, t[..|vals|], vals);
      (forall i :: 0 <= i < |vals| ==> a[t[i]] == vals[i]) &&
      (forall i :: |vals| <= i < VtierFieldsSize ==> a[t[i]] == Unset)
  {
    var k := |vals|;
    PrefixTargets(t, VtierFieldsSize, k);
    PlaceAt(VtierFieldsSize, t[..k], vals);
    assert forall i :: 0 <= i < k ==> t[..k][i] == t[i];
  }

  /**
   * A kept tier line is reported field by field: field 0 and fields 2 to 15
   * hold the integer conversions of the same position, field 1 the state of
   * charge as a float; with a wireless session fields 16 to 19 hold the
   * calculator's figures, without one they keep the default value.
   */
  lemma TierAtomValues(line: string, hasWireless: bool, wfile: string, wlc: Calculator,
                       tierSoc: int, schema: Schema)
    requires ValidSchema(schema) && TierParses(line)
    ensures var cs := TierScan(line);
      var a := TierReport(line, hasWireless, wfile, wlc, tierSoc, schema).atom.value;
      var t := TierTargets(schema);
      cs[1].FloatConv? && a.atomId == VoltageTierStatsAtom && |a.values| == VtierFieldsSize &&
      a.values[t[1]] == FloatValue(cs[1].lexeme) &&
      forall i :: 0 <= i < 16 && i != 1 ==> cs[i].IntConv? && a.values[t[i]] == IntValue(cs[i].n)
    ensures var cs := TierScan(line);
      var o := TierReport(line, hasWireless, wfile, wlc, tierSoc, schema);
      var a := o.atom.value;
      var t := TierTargets(schema);
      cs[1].FloatConv? &&
      if hasWireless then
        var c := wlc(tierSoc, cs[1].lexeme, wfile);
        o.tierSoc == c.tierSoc &&
        a.values[t[16]] == IntValue(c.power.poutMin) && a.values[t[17]] == IntValue(c.power.poutAvg) &&
        a.values[t[18]] == IntValue(c.power.poutMax) && a.values[t[19]] == IntValue(c.power.ofFreq)
      else
        o.tierSoc == tierSoc && forall i :: 16 <= i < VtierFieldsSize ==> a.values[t[i]] == Unset
  {
    TierConvs(line);
    var cs := TierScan(line);
    assert TierReport(line, hasWireless, wfile, wlc, tierSoc, schema) == TierKept(cs, hasWireless, wfile, wlc, tierSoc, schema);
    var size := if hasWireless then VtierFieldsSize else BaseTierFieldsSize;
    var c := wlc(tierSoc, cs[1].lexeme, wfile);
    var power := if hasWireless then Some(c.power) else None;
    TierValuesAt(cs, power, size);
    PlacedFields(TierTargets(schema), TierFieldValues(cs[1].lexeme, TierTmp(cs, power), size));
  }

  /** A tier line as the kernel prints it: an integer, the state of charge, then fourteen integers. */
  function TierConvsOf(x0: int, soc: string, xs: seq<int>): (r: seq<Conv>)
    requires |xs| == 14
    ensures |r| == 16
  {
    [IntConv(x0), FloatConv(soc)] + Ints(xs)
  }

  /** The shape of the tier format that its round trip relies on. */
  lemma TierFmtShape()
    ensures Separated(Directives(TierFmt))
    ensures IsConversion(Directives(TierFmt)[|Directives(TierFmt)| - 1])
    ensures |Slots(Directives(TierFmt))| == 16
    ensures forall i :: 0 <= i < 16 ==> Slots(Directives(TierFmt))[i] == if i == 1 then FloatTok else DecInt
  {
    TierFields();
    TierShapeOf(TierFmt);
  }

  lemma TierShapeOf(l: Layout)
    requires StdLayout(l) && l.first == DecInt && |l.more| == 15
    requires forall i :: 0 <= i < 15 ==> l.more[i].conv == if i == 0 then FloatTok else DecInt
    ensures Separated(Directives(l))
    ensures IsConversion(Directives(l)[|Directives(l)| - 1])
    ensures |Slots(Directives(l))| == 16
    ensures forall i :: 0 <= i < 16 ==> Slots(Directives(l))[i] == if i == 1 then FloatTok else DecInt
  {
    TierShape(l);
    StdLayoutSeparated(l);
    LayoutSeparated(l);
    EndsInConversion(l);
  }

  /** The tier values print with any format of the tier's shape. */
  lemma TierPrintable(fmt: seq<Directive>, x0: int, soc: string, xs: seq<int>)
    requires |xs| == 14 && IsFloatLexeme(soc)
    requires |Slots(fmt)| == 16
    requires forall i :: 0 <= i < 16 ==> Slots(fmt)[i] == if i == 1 then FloatTok else DecInt
    ensures PrintableAll(TierConvsOf(x0, soc, xs), fmt)
  {
    var vals := TierConvsOf(x0, soc, xs);
    forall i | 0 <= i < 16 ensures Printable(vals[i], Slots(fmt)[i]) {
      if i >= 2 {
        assert vals[i] == Ints(xs)[i - 2];
      }
    }
  }

  /**
   * Round trip of the tier format: a line printed with it scans back to the
   * same sixteen values, whatever non-numeric text follows.
   */
  lemma TierRoundTrip(x0: int, soc: string, xs: seq<int>, tail: string)
    requires |xs| == 14 && IsFloatLexeme(soc)
    requires tail == [] || !IsNumberChar(tail[0])
    ensures PrintableAll(TierConvsOf(x0, soc, xs), Directives(TierFmt)) &&
      TierScan(Render(Directives(TierFmt), TierConvsOf(x0, soc, xs)) + tail) == TierConvsOf(x0, soc, xs)
  {
    TierFmtShape();
    TierRoundTripOf(Directives(TierFmt), x0, soc, xs, tail);
  }

  /** The round trip for any format of the tier's shape. */
  lemma TierRoundTripOf(fmt: seq<Directive>, x0: int, soc: string, xs: seq<int>, tail: string)
    requires |xs| == 14 && IsFloatLexeme(soc)
    requires tail == [] || !IsNumberChar(tail[0])
    requires Separated(fmt) && fmt != [] && IsConversion(fmt[|fmt| - 1]) && |Slots(fmt)| == 16
    requires forall i :: 0 <= i < 16 ==> Slots(fmt)[i] == if i == 1 then FloatTok else DecInt
    ensures PrintableAll(TierConvsOf(x0, soc, xs), fmt) &&
      Scan(Render(fmt, TierConvsOf(x0, soc, xs)) + tail, fmt) == TierConvsOf(x0, soc, xs)
  {
    TierPrintable(fmt, x0, soc, xs);
    RenderScan(fmt, TierConvsOf(x0, soc, xs), tail);
  }
}
