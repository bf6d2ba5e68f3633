/**
 * The reporter itself, as the imperative code it is: a class whose fields
 * are the time of the last accepted event and the wireless calculator's
 * tier state of charge, whose methods fill fixed-size slot arrays the way
 * sscanf and the source's assignments do, and whose results are proved
 * equal to the record, atom and invocation functions of the other modules.
 */
module Reporter {
  import opened Wrappers
  import opened Scanf
  import opened Formats
  import opened Text
  import opened Atoms
  import opened Files
  import opened Throttle
  import opened ChargeStats
  import opened TierStats
  import opened Pipeline

  /**
   * sscanf with a layout's format whose conversions all store integers into
   * dst[base], dst[base + 1], ...: each conversion is stored as it is made,
   * so a failed match leaves the values converted before it in place. The
   * result is the number of conversions. What the line converts to is the
   * interpreter's Scanf.Run; the loop here models only the stores sscanf
   * makes through its address arguments.
   */
  method Sscanf(s: string, l: Layout, dst: array<int>, base: nat) returns (n: nat)
    requires base + |Slots(Directives(l))| <= dst.Length
    modifies dst
    ensures n == |ScanLayout(s, l)|
    ensures dst[..] == Store(old(dst[..]), base, IntsOf(ScanLayout(s, l)))
  {
    var vs := IntsOf(ScanLayout(s, l));
    n := |vs|;
    var i := 0;
    while i < n
      invariant 0 <= i <= n
      invariant dst[..] == Store(old(dst[..]), base, vs[..i])
    {
      dst[base + i] := vs[i];
      i := i + 1;
    }
    assert vs[..n] == vs;
  }

  /** The head line: CSI, then AACR, then baseline format, into tmp[0..]. */
  method ScanHead(line: string, tmp: array<int>) returns (ok: bool)
    requires tmp.Length == ChgFieldsSize && tmp[..] == Zeros(ChgFieldsSize)
    modifies tmp
    ensures ok <==> HeadTmp(line).Some?
    ensures ok ==> tmp[..] == HeadTmp(line).value
  {
    HeadFormatFacts();
    var n := Sscanf(line, ChgStatsFmt2, tmp, 0);
    if n != 10 {
      n := Sscanf(line, ChgStatsFmt1, tmp, 0);
      if n != 8 {
        n := Sscanf(line, ChgStatsFmt0, tmp, 0);
        if n != 7 {
          return false;
        }
      }
    }
    return true;
  }

  /** The wireless adapter lines: the adapter type into slot 0 and the capabilities into slots 10 to 16. */
  method ScanWireless(wlineAt: string, wlineAc: string, translate: int -> int, tmp: array<int>, size: nat)
    returns (fieldsSize: nat)
    requires tmp.Length == ChgFieldsSize
    modifies tmp
    ensures Draft(tmp[..], fieldsSize) == WirelessStage(Draft(old(tmp[..]), size), wlineAt, wlineAc, translate)
  {
    fieldsSize := size;
    if wlineAt != [] {
      AdapterTypeFormat();
      AdapterCapsFormat();
      var ssoc := new int[1](_ => 0);
      var n := Sscanf(wlineAt, AdapterTypeFmt, ssoc, 0);
      if n == 1 {
        tmp[0] := translate(ssoc[0]);
        n := Sscanf(wlineAc, AdapterCapsFmt, tmp, 10);
        if n == 7 {
          fieldsSize := ChgFieldsSize;
        }
      }
    }
  }

  /**
   * The PCA line into a seven-word buffer (the two adapter words, then the
   * five receiver-state words), and from there into the slots.
   */
  method ScanPca(pcaLine: string, wlineAt: string, pps: int, tmp: array<int>, size: nat)
    returns (fieldsSize: nat)
    requires tmp.Length == ChgFieldsSize
    modifies tmp
    ensures Draft(tmp[..], fieldsSize) == PcaStage(Draft(old(tmp[..]), size), pcaLine, wlineAt, pps)
  {
    fieldsSize := size;
    if pcaLine != [] {
      PcaFormat();
      var pca := new int[7](_ => 0);
      var n := Sscanf(pcaLine, PcaFmt, pca, 0);
      if n == 7 {
        fieldsSize := ChgFieldsSize;
        tmp[12] := pca[4];
        tmp[13] := pca[5];
        tmp[14] := pca[6];
        tmp[16] := pca[3];
        if wlineAt == [] {
          tmp[0] := pps;
          tmp[10] := pca[0];
          tmp[11] := pca[1];
          tmp[15] := pca[2];
        }
      }
    }
  }

  /**
   * One line of the charger-metrics log: when it converts all seven PDO
   * words, slot 15 takes its APDO word and slot 16 its PDO word.
   */
  method ScanPdoLine(pdoLine: string, tmp: array<int>) returns (found: bool)
    requires tmp.Length == ChgFieldsSize
    modifies tmp
    ensures found == PdoParses(pdoLine)
    ensures found ==> var w := IntsOf(ScanLayout(pdoLine, PdoFmt));
      |w| == 7 && tmp[..] == old(tmp[..])[15 := w[1]][16 := w[6]]
    ensures !found ==> tmp[..] == old(tmp[..])
  {
    PdoFormat();
    var pdo := new int[7](_ => 0);
    var n := Sscanf(pdoLine, PdoFmt, pdo, 0);
    found := n == 7;
    if found {
      tmp[15] := pdo[1];
      tmp[16] := pdo[6];
    }
  }

  /** The charger-metrics log, line by line until the first line with all seven PDO words. */
  method ScanPdoLines(gcharger: Option<string>, tmp: array<int>)
    requires tmp.Length == ChgFieldsSize
    modifies tmp
    ensures tmp[..] == OverrideStage(old(tmp[..]), gcharger)
  {
    if gcharger.Some? {
      var rest := gcharger.value;
      while rest != []
        invariant FirstPdo(Lines(rest)) == FirstPdo(Lines(gcharger.value))
        invariant tmp[..] == old(tmp[..])
        decreases |rest|
      {
        var (pdoLine, next) := GetLine(rest).value;
        assert Lines(rest) == [pdoLine] + Lines(next);
        assert ([pdoLine] + Lines(next))[1..] == Lines(next);
        var found := ScanPdoLine(pdoLine, tmp);
        if found {
          break;
        }
        rest := next;
      }
    }
  }

  /** values[field i's position] := slots[i] for each of the first size fields, over default values. */
  method PlaceInts(targets: seq<int>, slots: seq<int>, values: array<AtomValue>)
    requires |targets| == |slots| && InRange(targets, values.Length)
    requires values[..] == seq(values.Length, _ => Unset)
    modifies values
    ensures values[..] == Place(values.Length, targets, IntValues(slots))
  {
    var vals := IntValues(slots);
    for i := 0 to |slots|
      invariant InRange(targets[..i], values.Length)
      invariant values[..] == Place(values.Length, targets[..i], vals[..i])
    {
      PlaceStep(values.Length, targets, vals, i);
      values[targets[i]] := vals[i];
    }
    assert targets[..|slots|] == targets && vals[..|slots|] == vals;
  }

  /**
   * sscanf with the tier format: the first conversion into tmp[0], the
   * state of charge apart, and the remaining fourteen into tmp[1] to
   * tmp[14]; the wireless slots are not touched.
   */
  method ScanTier(line: string, tmp: array<int>) returns (n: nat, soc: string)
    requires tmp.Length == VtierFieldsSize - 1
    requires forall k :: 0 <= k < tmp.Length ==> tmp[k] == 0
    modifies tmp
    ensures n == |TierScan(line)| && (n == 16 <==> TierParses(line))
    ensures n == 16 ==>
      TierScan(line)[1].FloatConv? && soc == TierScan(line)[1].lexeme && tmp[..] == TierTmp(TierScan(line), None)
  {
    var cs := TierScan(line);
    n := |cs|;
    TierScanKinds(line);
    soc := StoreTierConvs(cs, tmp);
  }

  /** The conversions of a tier line, in order, into their slots; the second one is the state of charge. */
  method StoreTierConvs(cs: seq<Conv>, tmp: array<int>) returns (soc: string)
    requires tmp.Length == VtierFieldsSize - 1 && |cs| <= 16
    requires forall i :: 0 <= i < |cs| ==> (cs[i].FloatConv? <==> i == 1)
    requires forall k :: 0 <= k < tmp.Length ==> tmp[k] == 0
    modifies tmp
    ensures |cs| == 16 ==> soc == cs[1].lexeme && tmp[..] == TierTmp(cs, None)
  {
    var vs := IntsOf(cs);
    soc := [];
    for i := 0 to |cs|
      invariant 1 < i ==> soc == cs[1].lexeme
      invariant 0 < i ==> tmp[0] == vs[0]
      invariant forall k :: 1 <= k < 15 && k + 1 < i ==> tmp[k] == vs[k + 1]
      invariant forall k :: 15 <= k < VtierFieldsSize - 1 ==> tmp[k] == 0
    {
      if i == 0 {
        tmp[0] := vs[0];
      } else if i == 1 {
        soc := cs[1].lexeme;
      } else {
        tmp[i - 1] := vs[i];
      }
    }
    if |cs| == 16 {
      assert forall k :: 0 <= k < tmp.Length ==> tmp[k] == TierTmp(cs, None)[k];
    }
  }

  /**
   * The tier atom's values: field 0 the first slot, field 1 the state of
   * charge as a float, each further field i up to size the slot i - 1.
   */
  method PlaceTier(targets: seq<int>, soc: string, tmp: array<int>, size: nat, values: array<AtomValue>)
    requires tmp.Length == VtierFieldsSize - 1 && values.Length == VtierFieldsSize
    requires 2 <= size == |targets| <= VtierFieldsSize && InRange(targets, VtierFieldsSize)
    requires values[..] == seq(VtierFieldsSize, _ => Unset)
    modifies values
    ensures values[..] == Place(VtierFieldsSize, targets, TierFieldValues(soc, tmp[..], size))
  {
    ghost var vals := TierFieldValues(soc, tmp[..], size);
    assert values[..] == Place(VtierFieldsSize, targets[..0], vals[..0]);
    PlaceStep(VtierFieldsSize, targets, vals, 0);
    values[targets[0]] := IntValue(tmp[0]);
    PlaceStep(VtierFieldsSize, targets, vals, 1);
    values[targets[1]] := FloatValue(soc);
    for i := 2 to size
      invariant InRange(targets[..i], VtierFieldsSize)
      invariant values[..] == Place(VtierFieldsSize, targets[..i], vals[..i])
    {
      PlaceStep(VtierFieldsSize, targets, vals, i);
      values[targets[i]] := IntValue(tmp[i - 1]);
    }
    assert targets[..size] == targets && vals[..size] == vals;
  }

  /**
   * ReportVoltageTierStats on one line, with the calculator's tier state of
   * charge passed in and out: the sscanf, then the rest once the line has
   * converted all sixteen values.
   */
  method TierLineOutcome(line: string, hasWireless: bool, wfile: string, wlc: Calculator, tierSoc: int, schema: Schema)
    returns (o: TierOutcome)
    requires ValidSchema(schema)
    ensures o == TierReport(line, hasWireless, wfile, wlc, tierSoc, schema)
  {
    var tmp := new int[VtierFieldsSize - 1](_ => 0);
    var n, soc := ScanTier(line, tmp);
    if n != 16 {
      return TierOutcome(None, tierSoc);
    }
    o := ReportKeptTier(TierScan(line), soc, tmp, hasWireless, wfile, wlc, tierSoc, schema);
  }

  /**
   * The getline loop over the lines of s, with the calculator's tier state
   * of charge passed in and out: the atoms of the kept lines, in order.
   */
  method TierLinesOutcome(s: string, hasWireless: bool, wfile: string, wlc: Calculator, tierSoc: int, schema: Schema)
    returns (atoms: seq<VendorAtom>, soc: int)
    requires ValidSchema(schema)
    ensures (atoms, soc) == TierLines(Lines(s), hasWireless, wfile, wlc, tierSoc, schema)
  {
    atoms, soc := [], tierSoc;
    var rest := s;
    TierLinesStart(s, hasWireless, wfile, wlc, tierSoc, schema);
    while rest != []
      invariant TierLinesSplit(s, rest, atoms, soc, hasWireless, wfile, wlc, tierSoc, schema)
      decreases |rest|
    {
      var (line, next) := GetLine(rest).value;
      TierLinesNext(s, rest, atoms, soc, hasWireless, wfile, wlc, tierSoc, schema);
      var o := TierLineOutcome(line, hasWireless, wfile, wlc, soc, schema);
      atoms, soc, rest := atoms + if o.atom.Some? then [o.atom.value] else [], o.tierSoc, next;
    }
    TierLinesDone(s, atoms, soc, hasWireless, wfile, wlc, tierSoc, schema);
  }

  /**
   * The rest of ReportVoltageTierStats once a line has converted: with a
   * wireless session the calculator's figures go into the four wireless
   * slots; then the values of the reported fields are placed.
   */
  method ReportKeptTier(cs: seq<Conv>, soc: string, tmp: array<int>, hasWireless: bool, wfile: string,
                        wlc: Calculator, tierSoc: int, schema: Schema)
    returns (o: TierOutcome)
    requires ValidSchema(schema) && |cs| == 16 && cs[1].FloatConv? && soc == cs[1].lexeme
    requires tmp.Length == VtierFieldsSize - 1
    requires tmp[..] == TierTmp(cs, None)
    modifies tmp
    ensures o == TierKept(cs, hasWireless, wfile, wlc, tierSoc, schema)
  {
    var fieldsSize := BaseTierFieldsSize;
    var soc' := tierSoc;
    ghost var power: Option<WirelessPower> := None;
    if hasWireless {
      var c := wlc(tierSoc, soc, wfile);
      tmp[15] := c.power.poutMin;
      tmp[16] := c.power.poutAvg;
      tmp[17] := c.power.poutMax;
      tmp[18] := c.power.ofFreq;
      soc' := c.tierSoc;
      power := Some(c.power);
      fieldsSize := VtierFieldsSize;
    }
    assert tmp[..] == TierTmp(cs, power);
    var values := new AtomValue[VtierFieldsSize](_ => Unset);
    PrefixTargets(TierTargets(schema), VtierFieldsSize, fieldsSize);
    PlaceTier(TierTargets(schema)[..fieldsSize], soc, tmp, fieldsSize, values);
    o := TierOutcome(Some(VendorAtom(VoltageTierStatsAtom, values[..])), soc');
  }

  class ChargeStatsReporter {
    /** Boot time in seconds of the last event the throttle accepted; 0 before the first. */
    var logEventTimeSecs: int
    /** The wireless calculator's tier state of charge. */
    var tierSoc: int

    constructor()
      ensures logEventTimeSecs == 0 && tierSoc == 0
    {
      logEventTimeSecs := 0;
      tierSoc := 0;
    }

    /** The rolling-window filter at boot time now. */
    method ShouldReportEvent(now: int) returns (accept: bool)
      modifies this`logEventTimeSecs
      ensures accept == Accepts(old(logEventTimeSecs), now)
      ensures logEventTimeSecs == After(old(logEventTimeSecs), now)
    {
      if now == 0 {
        return false;
      }
      if logEventTimeSecs == 0 || logEventTimeSecs + DurationFilterSecs < now {
        logEventTimeSecs := now;
        return true;
      }
      return false;
    }

    /**
     * ReportChargeStats: the charge-stats atom of a head line and the
     * wireless and PCA lines, with the charger-metrics log as the file store
     * holds it; None when the head line is dropped.
     */
    method ReportChargeStats(line: string, wlineAt: string, wlineAc: string, pcaLine: string,
                             fs: FileStore, gchargerPath: string, translate: int -> int, schema: Schema)
      returns (atom: Option<VendorAtom>)
      requires ValidSchema(schema)
      ensures atom.Some? <==> HeadTmp(line).Some?
      ensures var d := ChargeDraft(line, wlineAt, wlineAc, pcaLine, ReadFile(fs, gchargerPath), translate, schema.ppsAdapterType);
        d.Some? ==> atom == Some(ChargeAtom(d.value, schema))
    {
      var tmp := new int[ChgFieldsSize](_ => 0);
      assert tmp[..] == Zeros(ChgFieldsSize);
      var ok := ScanHead(line, tmp);
      if !ok {
        return None;
      }
      ghost var head := tmp[..];
      var fieldsSize := ScanWireless(wlineAt, wlineAc, translate, tmp, BaseFieldsSize);
      fieldsSize := ScanPca(pcaLine, wlineAt, schema.ppsAdapterType, tmp, fieldsSize);
      ScanPdoLines(ReadFile(fs, gchargerPath), tmp);
      assert Draft(tmp[..], fieldsSize) == Stages(head, wlineAt, wlineAc, pcaLine, ReadFile(fs, gchargerPath),
                                                  translate, schema.ppsAdapterType);
      var values := new AtomValue[ChgFieldsSize](_ => Unset);
      PrefixTargets(ChargeTargets(schema), ChgFieldsSize, fieldsSize);
      PlaceInts(ChargeTargets(schema)[..fieldsSize], tmp[..fieldsSize], values);
      atom := Some(VendorAtom(ChargeStatsAtom, values[..]));
    }
  
    /**
     * ReportVoltageTierStats: the voltage-tier atom of one line, if it is
     * kept; with a wireless session the calculator is run, which moves its
     * tier state of charge.
     */
    method ReportVoltageTierStats(line: string, hasWireless: bool, wfile: string, wlc: Calculator, schema: Schema)
      returns (atom: Option<VendorAtom>)
      requires ValidSchema(schema)
      modifies this`tierSoc
      ensures TierOutcome(atom, tierSoc) == TierReport(line, hasWireless, wfile, wlc, old(tierSoc), schema)
    {
      var o := TierLineOutcome(line, hasWireless, wfile, wlc, tierSoc, schema);
      atom, tierSoc := o.atom, o.tierSoc;
    }

    /** ReportVoltageTierStats on every line std::getline reads from s, in order. */
    method ReportTierLines(s: string, hasWireless: bool, wfile: string, wlc: Calculator, schema: Schema)
      returns (atoms: seq<VendorAtom>)
      requires ValidSchema(schema)
      modifies this`tierSoc
      ensures (atoms, tierSoc) == TierLines(Lines(s), hasWireless, wfile, wlc, old(tierSoc), schema)
    {
      atoms, tierSoc := TierLinesOutcome(s, hasWireless, wfile, wlc, tierSoc, schema);
    }

    /** checkContentsAndAck on a metrics log, then its tier lines without wireless figures. */
    method ReportMetricsLog(fs: FileStore, path: string, wlc: Calculator, schema: Schema)
      returns (fs': FileStore, atoms: seq<VendorAtom>)
      requires ValidSchema(schema)
      modifies this`tierSoc
      ensures (atoms, fs') == (MetricsAtoms(CheckContentsAndAck(fs, path).0, wlc, old(tierSoc), schema),
                               CheckContentsAndAck(fs, path).1)
      ensures tierSoc == old(tierSoc)
    {
      var (contents, fsAcked) := CheckContentsAndAck(fs, path);
      fs' := fsAcked;
      atoms := [];
      if contents.Some? {
        atoms := ReportTierLines(contents.value, false, [], wlc, schema);
        TierLinesAtoms(Lines(contents.value), false, [], wlc, old(tierSoc), schema);
      }
    }

    /**
     * checkAndReport on the charge-stats log at path at boot time now: the
     * file store afterwards and the atoms reported, in order.
     */
    method CheckAndReport(fs: FileStore, path: string, now: int, paths: Paths, co: Collaborators, schema: Schema)
      returns (fs': FileStore, atoms: seq<VendorAtom>)
      requires ValidSchema(schema)
      modifies this
      ensures Invoked(State(fs', logEventTimeSecs, tierSoc), atoms) ==
        Invocation(State(fs, old(logEventTimeSecs), old(tierSoc)), path, now, paths, co, schema)
    {
      fs' := fs;
      atoms := [];
      var contents := ReadFile(fs, path);
      if contents.None? {
        return;
      }
      var first := GetLine(contents.value);
      if first.None? {
        return;
      }
      var (line, rest) := first.value;
      var (_, cleared) := ClearFile(fs, path);
      fs' := cleared;
      var accept := ShouldReportEvent(now);
      if !accept {
        return;
      }
      fs', atoms := ReportAccepted(cleared, line, rest, now, paths, co, schema);
    }

    /**
     * The accepted part of checkAndReport, once the log has been cleared
     * into fs: the charge atom, the tier lines after the head line, then the
     * three metrics logs.
     */
    method ReportAccepted(fs: FileStore, line: string, rest: string, now: int, paths: Paths, co: Collaborators, schema: Schema)
      returns (fs': FileStore, atoms: seq<VendorAtom>)
      requires ValidSchema(schema)
      modifies this`tierSoc
      ensures Invoked(State(fs', now, tierSoc), atoms) == Pipeline.Accepted(fs, line, rest, now, old(tierSoc), paths, co, schema)
    {
      var h := HeadsOf(co);
      if co.wireless.Some? {
        tierSoc := 0;
      }
      var charge := ReportChargeStats(line, h.wlineAt, h.wlineAc, h.pcaLine, fs, paths.gcharger, co.translate, schema);
      var primary := ReportTierLines(rest, co.wireless.Some?, h.wfile, co.wlc, schema);
      var thermal, gcharger, dualBatt;
      fs', thermal := ReportMetricsLog(fs, paths.thermal, co.wlc, schema);
      fs', gcharger := ReportMetricsLog(fs', paths.gcharger, co.wlc, schema);
      fs', dualBatt := ReportMetricsLog(fs', paths.dualBatt, co.wlc, schema);
      atoms := (if charge.Some? then [charge.value] else []) + (primary + (thermal + gcharger + dualBatt));
    }
  }
}
