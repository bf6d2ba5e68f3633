/**
 * One checkAndReport invocation as a function of the reporter's state, the
 * log files and the collaborators: which files it reads and clears, whether
 * the throttle lets the event through, and the atoms it reports, in order.
 */
module Pipeline {
  import opened Wrappers
  import opened Text
  import opened Files
  import opened Throttle
  import opened Atoms
  import opened ChargeStats
  import opened TierStats

  /** The paths of the metrics logs consumed after the charge-stats log. */
  datatype Paths = Paths(gcharger: string, thermal: string, dualBatt: string)

  /**
   * What the collaborators whose code is not part of this model supply: the
   * PCA log and the wireless log, each when its own check-and-acknowledge
   * succeeds, the adapter-type translation and the wireless calculator.
   */
  datatype Collaborators = Collaborators(pca: Option<string>, wireless: Option<string>,
                                         translate: int -> int, wlc: Calculator)

  /** The file store, the time of the last accepted event and the wireless calculator's tier state of charge. */
  datatype State = State(store: FileStore, last: int, tierSoc: int)

  /** The state after an invocation and the atoms it reported, in order. */
  datatype Invoked = Invoked(state: State, atoms: seq<VendorAtom>)

  /**
   * checkContentsAndAck: the contents of a log that could be read and then
   * cleared; a log that cannot be read is left alone, and one that cannot
   * be cleared is not reported.
   */
  function CheckContentsAndAck(fs: FileStore, path: string): (r: (Option<string>, FileStore))
    ensures r.0.Some? <==> path in fs.files && path !in fs.unwritable
    ensures r.0.Some? ==> r.0.value == fs.files[path] && ReadFile(r.1, path) == Some("0")
    ensures path !in fs.files || path in fs.unwritable ==> r.1 == fs
    ensures forall p :: p != path ==> ReadFile(r.1, p) == ReadFile(fs, p)
    ensures r.1.unwritable == fs.unwritable
  {
    match ReadFile(fs, path)
    case None => (None, fs)
    case Some(contents) =>
      var (ok, fs') := ClearFile(fs, path);
      (if ok then Some(contents) else None, fs')
  }

  /** The line one std::getline reads, or the empty string when there is none. */
  function FirstLine(s: string): string {
    match GetLine(s)
    case None => []
    case Some((line, _)) => line
  }

  /** The line a second std::getline reads, or the empty string when there is none. */
  function SecondLine(s: string): string {
    match GetLine(s)
    case None => []
    case Some((_, rest)) => FirstLine(rest)
  }

  /**
   * ReportVoltageTierStats on each line in turn: the atoms of the kept lines
   * and the calculator's tier state of charge at the end.
   */
  function TierLines(ls: seq<string>, hasWireless: bool, wfile: string, wlc: Calculator,
                     tierSoc: int, schema: Schema): (r: (seq<VendorAtom>, int))
    requires ValidSchema(schema)
    ensures |r.0| <= |ls|
    decreases |ls|
  {
    if ls == [] then ([], tierSoc)
    else
      var o := TierReport(ls[0], hasWireless, wfile, wlc, tierSoc, schema);
      var rest := TierLines(ls[1..], hasWireless, wfile, wlc, o.tierSoc, schema);
      ((if o.atom.Some? then [o.atom.value] else []) + rest.0, rest.1)
  }

  /**
   * Part way through the lines of s: the atoms gathered so far, acc, followed
   * by those of the lines of rest read from tier state soc, make up the atoms
   * of all of s, and the final tier state is that of rest.
   */
  ghost predicate TierLinesSplit(s: string, rest: string, acc: seq<VendorAtom>, soc: int, hasWireless: bool,
                                 wfile: string, wlc: Calculator, tierSoc: int, schema: Schema)
    requires ValidSchema(schema)
  {
    var later := TierLines(Lines(rest), hasWireless, wfile, wlc, soc, schema);
    TierLines(Lines(s), hasWireless, wfile, wlc, tierSoc, schema) == (acc + later.0, later.1)
  }

  lemma TierLinesStart(s: string, hasWireless: bool, wfile: string, wlc: Calculator, tierSoc: int, schema: Schema)
    requires ValidSchema(schema)
    ensures TierLinesSplit(s, s, [], tierSoc, hasWireless, wfile, wlc, tierSoc, schema)
  {
    assert [] + TierLines(Lines(s), hasWireless, wfile, wlc, tierSoc, schema).0
        == TierLines(Lines(s), hasWireless, wfile, wlc, tierSoc, schema).0;
  }

  /** Reading one more line moves its atom, if any, to the gathered atoms and its tier state to the rest. */
  lemma TierLinesNext(s: string, rest: string, acc: seq<VendorAtom>, soc: int, hasWireless: bool,
                      wfile: string, wlc: Calculator, tierSoc: int, schema: Schema)
    requires ValidSchema(schema) && rest != []
    requires TierLinesSplit(s, rest, acc, soc, hasWireless, wfile, wlc, tierSoc, schema)
    ensures var (line, next) := GetLine(rest).value;
      var o := TierReport(line, hasWireless, wfile, wlc, soc, schema);
      TierLinesSplit(s, next, acc + (if o.atom.Some? then [o.atom.value] else []), o.tierSoc,
                     hasWireless, wfile, wlc, tierSoc, schema)
  {
    var (line, next) := GetLine(rest).value;
    assert Lines(rest) == [line] + Lines(next);
    assert ([line] + Lines(next))[1..] == Lines(next);
    var o := TierReport(line, hasWireless, wfile, wlc, soc, schema);
    var later := TierLines(Lines(next), hasWireless, wfile, wlc, o.tierSoc, schema);
    var mine := if o.atom.Some? then [o.atom.value] else [];
    assert TierLines(Lines(rest), hasWireless, wfile, wlc, soc, schema) == (mine + later.0, later.1);
    Regroup(acc, mine, later.0);
  }

  /** Once every line is read, the gathered atoms and the tier state are those of all of s. */
  lemma TierLinesDone(s: string, acc: seq<VendorAtom>, soc: int, hasWireless: bool,
                      wfile: string, wlc: Calculator, tierSoc: int, schema: Schema)
    requires ValidSchema(schema)
    requires TierLinesSplit(s, [], acc, soc, hasWireless, wfile, wlc, tierSoc, schema)
    ensures TierLines(Lines(s), hasWireless, wfile, wlc, tierSoc, schema) == (acc, soc)
  {
    assert Lines([]) == [];
    assert acc + [] == acc;
  }

  lemma Regroup<T>(a: seq<T>, b: seq<T>, c: seq<T>)
    ensures a + (b + c) == (a + b) + c
  {
  }

  /**
   * Every atom of a run of tier lines is a voltage-tier atom, and without
   * wireless figures the calculator's state is left as it was.
   */
  lemma TierLinesAtoms(ls: seq<string>, hasWireless: bool, wfile: string, wlc: Calculator,
                       tierSoc: int, schema: Schema)
    requires ValidSchema(schema)
    ensures var r := TierLines(ls, hasWireless, wfile, wlc, tierSoc, schema);
      (forall a :: a in r.0 ==> a.atomId == VoltageTierStatsAtom) &&
      (!hasWireless ==> r.1 == tierSoc)
  {
    TierLinesIds(ls, hasWireless, wfile, wlc, tierSoc, schema);
    if !hasWireless {
      TierLinesSoc(ls, wfile, wlc, tierSoc, schema);
    }
  }

  lemma {:induction false} TierLinesIds(ls: seq<string>, hasWireless: bool, wfile: string, wlc: Calculator,
                                        tierSoc: int, schema: Schema)
    requires ValidSchema(schema)
    ensures forall a :: a in TierLines(ls, hasWireless, wfile, wlc, tierSoc, schema).0 ==> a.atomId == VoltageTierStatsAtom
    decreases |ls|
  {
    if ls != [] {
      var o := TierReport(ls[0], hasWireless, wfile, wlc, tierSoc, schema);
      TierLinesIds(ls[1..], hasWireless, wfile, wlc, o.tierSoc, schema);
      var head := if o.atom.Some? then [o.atom.value] else [];
      var rest := TierLines(ls[1..], hasWireless, wfile, wlc, o.tierSoc, schema);
      assert TierLines(ls, hasWireless, wfile, wlc, tierSoc, schema).0 == head + rest.0;
    }
  }

  lemma {:induction false} TierLinesSoc(ls: seq<string>, wfile: string, wlc: Calculator, tierSoc: int, schema: Schema)
    requires ValidSchema(schema)
    ensures TierLines(ls, false, wfile, wlc, tierSoc, schema).1 == tierSoc
    decreases |ls|
  {
    if ls != [] {
      TierLinesSoc(ls[1..], wfile, wlc, tierSoc, schema);
    }
  }

  /** The tier atoms of a metrics log consumed by checkContentsAndAck, read without wireless figures. */
  function MetricsAtoms(contents: Option<string>, wlc: Calculator, tierSoc: int, schema: Schema): seq<VendorAtom>
    requires ValidSchema(schema)
  {
    if contents.None? then [] else TierLines(Lines(contents.value), false, [], wlc, tierSoc, schema).0
  }

  /** The head lines of the PCA and wireless logs, as checkAndReport reads them. */
  datatype Heads = Heads(pcaLine: string, wfile: string, wlineAt: string, wlineAc: string)

  function HeadsOf(co: Collaborators): (r: Heads)
    ensures co.pca.None? ==> r.pcaLine == []
    ensures co.wireless.None? ==> r.wfile == [] && r.wlineAt == [] && r.wlineAc == []
  {
    var wfile := if co.wireless.Some? then co.wireless.value else [];
    Heads(if co.pca.Some? then FirstLine(co.pca.value) else [], wfile,
          if co.wireless.Some? then FirstLine(wfile) else [],
          if co.wireless.Some? then SecondLine(wfile) else [])
  }

  /**
   * The head lines are what std::getline reads: the first line of the PCA
   * log, and the first and second lines of the wireless log; a line that
   * is not there reads as the empty string.
   */
  lemma HeadLines(co: Collaborators)
    ensures var r := HeadsOf(co);
      (co.pca.Some? && Lines(co.pca.value) != [] ==> r.pcaLine == Lines(co.pca.value)[0]) &&
      (co.pca.Some? && Lines(co.pca.value) == [] ==> r.pcaLine == [])
    ensures var r := HeadsOf(co);
      co.wireless.Some? ==>
        var ls := Lines(co.wireless.value);
        r.wfile == co.wireless.value &&
        (if ls == [] then r.wlineAt == [] else r.wlineAt == ls[0]) &&
        (if |ls| < 2 then r.wlineAc == [] else r.wlineAc == ls[1])
  {
    if co.wireless.Some? {
      var w := co.wireless.value;
      if w != [] {
        var rest := GetLine(w).value.1;
        assert Lines(w) == [GetLine(w).value.0] + Lines(rest);
        if rest != [] {
          assert Lines(rest) == [GetLine(rest).value.0] + Lines(GetLine(rest).value.1);
        }
      }
    }
  }

  /**
   * The charge atom of the first line, if it is kept, with the charger
   * metrics log as it is in the given store.
   */
  function ChargeAtoms(line: string, fs: FileStore, gchargerPath: string, co: Collaborators, schema: Schema): (r: seq<VendorAtom>)
    requires ValidSchema(schema)
    ensures |r| <= 1 && (r != [] <==> HeadTmp(line).Some?)
    ensures forall a :: a in r ==> a.atomId == ChargeStatsAtom
  {
    var h := HeadsOf(co);
    var draft := ChargeDraft(line, h.wlineAt, h.wlineAc, h.pcaLine, ReadFile(fs, gchargerPath),
                             co.translate, schema.ppsAdapterType);
    if draft.Some? then [ChargeAtom(draft.value, schema)] else []
  }

  /** What consuming the three metrics logs leaves: their tier atoms, in order, and the file store. */
  datatype Consumed = Consumed(atoms: seq<VendorAtom>, store: FileStore)

  /**
   * checkContentsAndAck on the thermal, charger and dual-battery metrics
   * logs in turn, each consumed log reported line by line without wireless
   * figures. Only those three logs change, and a log that reads "0" still
   * reads "0" afterwards.
   */
  function ConsumeMetrics(fs: FileStore, paths: Paths, wlc: Calculator, tierSoc: int, schema: Schema): (r: Consumed)
    requires ValidSchema(schema)
    ensures r.store.unwritable == fs.unwritable
    ensures forall p :: p != paths.thermal && p != paths.gcharger && p != paths.dualBatt ==>
      ReadFile(r.store, p) == ReadFile(fs, p)
    ensures forall p :: ReadFile(fs, p) == Some("0") ==> ReadFile(r.store, p) == Some("0")
  {
    var k := AckMetricsLogs(fs, paths);
    Consumed(MetricsAtoms(k.thermal, wlc, tierSoc, schema) + MetricsAtoms(k.gcharger, wlc, tierSoc, schema)
             + MetricsAtoms(k.dualBatt, wlc, tierSoc, schema), k.store)
  }

  /** The contents checkContentsAndAck returns for each metrics log, and the store after all three. */
  datatype Acked = Acked(thermal: Option<string>, gcharger: Option<string>, dualBatt: Option<string>, store: FileStore)

  function AckMetricsLogs(fs: FileStore, paths: Paths): (r: Acked)
    ensures r.store.unwritable == fs.unwritable
    ensures forall p :: p != paths.thermal && p != paths.gcharger && p != paths.dualBatt ==>
      ReadFile(r.store, p) == ReadFile(fs, p)
    ensures forall p :: ReadFile(fs, p) == Some("0") ==> ReadFile(r.store, p) == Some("0")
  {
    var (thermal, fs2) := CheckContentsAndAck(fs, paths.thermal);
    var (gcharger, fs3) := CheckContentsAndAck(fs2, paths.gcharger);
    var (dualBatt, fs4) := CheckContentsAndAck(fs3, paths.dualBatt);
    Acked(thermal, gcharger, dualBatt, fs4)
  }

  /** What checkContentsAndAck returns for a log: its contents when it is readable and can be cleared. */
  function Acknowledged(fs: FileStore, path: string): (r: Option<string>)
    ensures r == CheckContentsAndAck(fs, path).0
  {
    if path in fs.files && path !in fs.unwritable then Some(fs.files[path]) else None
  }

  /** The three metrics logs are three different files. */
  predicate DistinctMetrics(paths: Paths) {
    paths.thermal != paths.gcharger && paths.thermal != paths.dualBatt && paths.gcharger != paths.dualBatt
  }

  /** A log whose own entry and the unwritable set are unchanged is acknowledged as before. */
  lemma AckUnchanged(fs: FileStore, fs': FileStore, path: string)
    requires ReadFile(fs', path) == ReadFile(fs, path) && fs'.unwritable == fs.unwritable
    ensures Acknowledged(fs', path) == Acknowledged(fs, path)
  {
  }

  /**
   * With three different metrics logs, each is acknowledged as it was in
   * the store before any of them: its contents come back when it is
   * readable and writable, and it then reads "0"; otherwise it is as before.
   */
  lemma AckMetricsContents(fs: FileStore, paths: Paths)
    requires DistinctMetrics(paths)
    ensures var k := AckMetricsLogs(fs, paths);
      k.thermal == Acknowledged(fs, paths.thermal) &&
      k.gcharger == Acknowledged(fs, paths.gcharger) &&
      k.dualBatt == Acknowledged(fs, paths.dualBatt)
    ensures var k := AckMetricsLogs(fs, paths);
      forall p :: p in {paths.thermal, paths.gcharger, paths.dualBatt} ==>
        ReadFile(k.store, p) == if Acknowledged(fs, p).Some? then Some("0") else ReadFile(fs, p)
  {
    var (thermal, fs2) := CheckContentsAndAck(fs, paths.thermal);
    var (gcharger, fs3) := CheckContentsAndAck(fs2, paths.gcharger);
    AckUnchanged(fs, fs2, paths.gcharger);
    AckUnchanged(fs, fs3, paths.dualBatt);
  }

  /** The text whose lines a metrics log is reported from: its contents once acknowledged, else nothing. */
  function Consumable(fs: FileStore, path: string): string {
    if Acknowledged(fs, path).Some? then Acknowledged(fs, path).value else []
  }

  lemma MetricsAtomsLines(contents: Option<string>, wlc: Calculator, tierSoc: int, schema: Schema)
    requires ValidSchema(schema)
    ensures MetricsAtoms(contents, wlc, tierSoc, schema) ==
      TierLines(Lines(if contents.Some? then contents.value else []), false, [], wlc, tierSoc, schema).0
  {
    assert Lines([]) == [];
  }

  /**
   * With three different metrics logs, the atoms are the tier atoms of the
   * thermal log's lines, then of the charger log's, then of the dual-battery
   * log's, each read without wireless figures from the same tier state of
   * charge; a log that cannot be acknowledged contributes nothing.
   */
  lemma ConsumeMetricsOrder(fs: FileStore, paths: Paths, wlc: Calculator, tierSoc: int, schema: Schema)
    requires ValidSchema(schema) && DistinctMetrics(paths)
    ensures ConsumeMetrics(fs, paths, wlc, tierSoc, schema).atoms ==
      TierLines(Lines(Consumable(fs, paths.thermal)), false, [], wlc, tierSoc, schema).0 +
      TierLines(Lines(Consumable(fs, paths.gcharger)), false, [], wlc, tierSoc, schema).0 +
      TierLines(Lines(Consumable(fs, paths.dualBatt)), false, [], wlc, tierSoc, schema).0
    ensures forall p :: p in {paths.thermal, paths.gcharger, paths.dualBatt} ==>
      ReadFile(ConsumeMetrics(fs, paths, wlc, tierSoc, schema).store, p) ==
        if Acknowledged(fs, p).Some? then Some("0") else ReadFile(fs, p)
  {
    var k := AckMetricsLogs(fs, paths);
    AckMetricsContents(fs, paths);
    MetricsAtomsLines(k.thermal, wlc, tierSoc, schema);
    MetricsAtomsLines(k.gcharger, wlc, tierSoc, schema);
    MetricsAtomsLines(k.dualBatt, wlc, tierSoc, schema);
  }

  /** Every atom of the metrics logs is a voltage-tier atom. */
  lemma ConsumeMetricsAtoms(fs: FileStore, paths: Paths, wlc: Calculator, tierSoc: int, schema: Schema)
    requires ValidSchema(schema)
    ensures forall a :: a in ConsumeMetrics(fs, paths, wlc, tierSoc, schema).atoms ==> a.atomId == VoltageTierStatsAtom
  {
    var k := AckMetricsLogs(fs, paths);
    MetricsAtomsIds(k.thermal, wlc, tierSoc, schema);
    MetricsAtomsIds(k.gcharger, wlc, tierSoc, schema);
    MetricsAtomsIds(k.dualBatt, wlc, tierSoc, schema);
  }

  /**
   * An accepted event, after the log at path has been cleared into fs: the
   * charge atom, the tier atoms of the remaining lines with the wireless
   * figures (the calculator's tier state of charge reset first), then the
   * metrics logs.
   */
  function Accepted(fs: FileStore, line: string, rest: string, now: int, tierSoc: int,
                    paths: Paths, co: Collaborators, schema: Schema): (r: Invoked)
    requires ValidSchema(schema)
  {
    var h := HeadsOf(co);
    var soc := if co.wireless.Some? then 0 else tierSoc;
    var primary := TierLines(Lines(rest), co.wireless.Some?, h.wfile, co.wlc, soc, schema);
    var metrics := ConsumeMetrics(fs, paths, co.wlc, primary.1, schema);
    Invoked(State(metrics.store, now, primary.1),
            ChargeAtoms(line, fs, paths.gcharger, co, schema) + (primary.0 + metrics.atoms))
  }

  /**
   * checkAndReport on the charge-stats log at path, at boot time now. An
   * unreadable or empty log changes nothing. Otherwise the log is cleared,
   * and then the throttle decides; an accepted event reports the charge
   * atom of the first line, the tier atoms of the remaining lines (with
   * wireless figures when a wireless log is present), and the tier atoms of
   * the thermal, charger and dual-battery metrics logs, each of which is
   * cleared as it is consumed. The charger-metrics override reads that log
   * before it is cleared.
   */
  function Invocation(s: State, path: string, now: int, paths: Paths, co: Collaborators, schema: Schema): (r: Invoked)
    requires ValidSchema(schema)
  {
    match ReadFile(s.store, path)
    case None => Invoked(s, [])
    case Some(contents) =>
      match GetLine(contents)
      case None => Invoked(s, [])
      case Some((line, rest)) =>
        var fs1 := ClearFile(s.store, path).1;
        if !Accepts(s.last, now) then Invoked(s.(store := fs1), [])
        else Accepted(fs1, line, rest, now, s.tierSoc, paths, co, schema)
  }
  // ---------------------------------------------------------------------
  // Properties of an invocation.
  // ---------------------------------------------------------------------

  /** Whether the charge-stats log at path has a first line to process. */
  predicate HasLine(fs: FileStore, path: string) {
    path in fs.files && fs.files[path] != []
  }

  /** An unreadable or empty log leaves every file, the throttle and the calculator alone and reports nothing. */
  lemma NothingToRead(s: State, path: string, now: int, paths: Paths, co: Collaborators, schema: Schema)
    requires ValidSchema(schema) && !HasLine(s.store, path)
    ensures Invocation(s, path, now, paths, co, schema) == Invoked(s, [])
  {
  }

  /**
   * An event the throttle rejects reports nothing and changes nothing but
   * the log itself, which has already been cleared.
   */
  lemma Throttled(s: State, path: string, now: int, paths: Paths, co: Collaborators, schema: Schema)
    requires ValidSchema(schema) && HasLine(s.store, path) && !Accepts(s.last, now)
    ensures Invocation(s, path, now, paths, co, schema) == Invoked(s.(store := ClearFile(s.store, path).1), [])
  {
  }

  lemma MetricsAtomsIds(contents: Option<string>, wlc: Calculator, tierSoc: int, schema: Schema)
    requires ValidSchema(schema)
    ensures forall a :: a in MetricsAtoms(contents, wlc, tierSoc, schema) ==> a.atomId == VoltageTierStatsAtom
  {
    if contents.Some? {
      TierLinesAtoms(Lines(contents.value), false, [], wlc, tierSoc, schema);
    }
  }

  /**
   * A log with a first line is always cleared when it can be written,
   * whether or not the throttle accepts the event, and an accepted event
   * moves the throttle's window to now.
   */
  lemma InvocationClears(s: State, path: string, now: int, paths: Paths, co: Collaborators, schema: Schema)
    requires ValidSchema(schema) && HasLine(s.store, path)
    ensures var r := Invocation(s, path, now, paths, co, schema);
      (path !in s.store.unwritable ==> ReadFile(r.state.store, path) == Some("0")) &&
      r.state.store.unwritable == s.store.unwritable &&
      r.state.last == After(s.last, now)
  {
  }

  /**
   * The charge atom, if any, is the first atom reported, and it is there
   * exactly when the event is accepted and the first line is kept; every
   * other atom is a voltage-tier atom.
   */
  lemma InvocationAtoms(s: State, path: string, now: int, paths: Paths, co: Collaborators, schema: Schema)
    requires ValidSchema(schema) && HasLine(s.store, path)
    ensures var r := Invocation(s, path, now, paths, co, schema);
      var line := GetLine(s.store.files[path]).value.0;
      (r.atoms != [] && r.atoms[0].atomId == ChargeStatsAtom <==> Accepts(s.last, now) && HeadTmp(line).Some?) &&
      (r.atoms != [] ==> forall a :: a in r.atoms[1..] ==> a.atomId == VoltageTierStatsAtom)
  {
    var (line, rest) := GetLine(s.store.files[path]).value;
    if Accepts(s.last, now) {
      AcceptedAtoms(ClearFile(s.store, path).1, line, rest, now, s.tierSoc, paths, co, schema);
    }
  }

  lemma AcceptedAtoms(fs: FileStore, line: string, rest: string, now: int, tierSoc: int,
                      paths: Paths, co: Collaborators, schema: Schema)
    requires ValidSchema(schema)
    ensures var r := Accepted(fs, line, rest, now, tierSoc, paths, co, schema);
      (r.atoms != [] && r.atoms[0].atomId == ChargeStatsAtom <==> HeadTmp(line).Some?) &&
      (r.atoms != [] ==> forall a :: a in r.atoms[1..] ==> a.atomId == VoltageTierStatsAtom)
  {
    var h := HeadsOf(co);
    var soc := if co.wireless.Some? then 0 else tierSoc;
    var primary := TierLines(Lines(rest), co.wireless.Some?, h.wfile, co.wlc, soc, schema);
    TierLinesAtoms(Lines(rest), co.wireless.Some?, h.wfile, co.wlc, soc, schema);
    var metrics := ConsumeMetrics(fs, paths, co.wlc, primary.1, schema);
    ConsumeMetricsAtoms(fs, paths, co.wlc, primary.1, schema);
    LeadingCharge(ChargeAtoms(line, fs, paths.gcharger, co, schema), primary.0, metrics.atoms);
  }

  /** At most one charge atom in front of tier atoms: the first atom is a charge atom exactly when there is one. */
  lemma LeadingCharge(charge: seq<VendorAtom>, primary: seq<VendorAtom>, metrics: seq<VendorAtom>)
    requires |charge| <= 1 && forall a :: a in charge ==> a.atomId == ChargeStatsAtom
    requires forall a :: a in primary ==> a.atomId == VoltageTierStatsAtom
    requires forall a :: a in metrics ==> a.atomId == VoltageTierStatsAtom
    ensures var atoms := charge + (primary + metrics);
      (atoms != [] && atoms[0].atomId == ChargeStatsAtom <==> charge != []) &&
      (atoms != [] ==> forall a :: a in atoms[1..] ==> a.atomId == VoltageTierStatsAtom)
  {
    var tiers := primary + metrics;
    var atoms := charge + tiers;
    if charge != [] {
      assert atoms[1..] == tiers;
    } else {
      assert atoms == tiers;
      assert atoms != [] ==> atoms[0] in tiers;
    }
  }

  /**
   * The charger-metrics override reads that log as it was before this
   * invocation (unless it is the charge-stats log itself), that is, before
   * checkContentsAndAck consumes it for its tier lines.
   */
  lemma OverrideReadsUnconsumed(s: State, path: string, now: int, paths: Paths, co: Collaborators, schema: Schema)
    requires ValidSchema(schema) && HasLine(s.store, path) && Accepts(s.last, now) && path != paths.gcharger
    ensures var r := Invocation(s, path, now, paths, co, schema);
      var line := GetLine(s.store.files[path]).value.0;
      r.atoms[..|ChargeAtoms(line, s.store, paths.gcharger, co, schema)|] ==
        ChargeAtoms(line, s.store, paths.gcharger, co, schema)
  {
    var (line, rest) := GetLine(s.store.files[path]).value;
    var fs1 := ClearFile(s.store, path).1;
    assert ReadFile(fs1, paths.gcharger) == ReadFile(s.store, paths.gcharger);
    assert ChargeAtoms(line, fs1, paths.gcharger, co, schema) == ChargeAtoms(line, s.store, paths.gcharger, co, schema);
  }

  /**
   * A charge-stats log that an earlier invocation cleared to "0" reports no
   * charge atom and no tier line of its own: only the metrics logs can
   * still contribute tier atoms.
   */
  lemma ClearedLogSilent(s: State, path: string, now: int, paths: Paths, co: Collaborators, schema: Schema)
    requires ValidSchema(schema) && ReadFile(s.store, path) == Some("0")
    ensures var r := Invocation(s, path, now, paths, co, schema);
      forall a :: a in r.atoms ==> a.atomId == VoltageTierStatsAtom
  {
    ClearedHead();
    assert LineEndFrom("0", 1) == 1;
    assert "0"[..1] == "0";
    assert GetLine("0") == Some(("0", []));
    var r := Invocation(s, path, now, paths, co, schema);
    if Accepts(s.last, now) {
      var fs1 := ClearFile(s.store, path).1;
      var soc := if co.wireless.Some? then 0 else s.tierSoc;
      assert Lines([]) == [];
      ConsumeMetricsAtoms(fs1, paths, co.wlc, soc, schema);
      assert r.atoms == [] + ([] + ConsumeMetrics(fs1, paths, co.wlc, soc, schema).atoms);
    }
  }
}
