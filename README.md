# Charge-stats reporter, modelled in Dafny

This project models the charge-stats reporter of the Pixel stats daemon
(`pixelstats/ChargeStatsReporter.cpp`) and proves properties of the model.
When the kernel announces a charge session, the reporter reads the
charge-stats log. Its first line is a charge-session record written with
one of three `sscanf` formats: baseline, AACR (the age-adjusted charge-rate
capacity) or CSI (the charging-speed indicator words). The other lines are
voltage-tier records. The reporter clears the log by writing `"0"` to it,
throttles the events with a 15-second rolling window, and then builds the
atoms it sends to the stats service:

- one `ChargeStats` atom, with the wireless adapter lines, the PCA line and
  the charger-metrics PDO line layered over the head record;
- one `VoltageTierStats` atom per voltage-tier line, with four wireless
  figures added while a wireless session is present;
- the voltage-tier atoms of the thermal, charger and dual-battery metrics
  logs, each log cleared as it is consumed.

The modules follow the structure of the program:

- `Scanf` interprets the subset of `sscanf` the reporter uses. It handles
  `%d`, `%x` and `%f` conversions, literal characters, and blanks in the
  format, which skip any run of white space. The module proves that
  printing values with a format and scanning them back gives those values.
- `Formats` holds the format strings as directive lists: the three
  charge-stats formats, the adapter-type, adapter-capabilities, PCA, PDO
  and voltage-tier formats.
- `Text` models line-by-line reading with `std::getline`.
- `Atoms` holds vendor atoms and the dense schema mapping. A field's
  protocol-buffer field number minus a fixed offset is its position in the
  atom.
- `ChargeStats` models how `ReportChargeStats` assembles the slots
  `tmp[0..17]` and `fields_size`.
- `TierStats` models how `ReportVoltageTierStats` turns one line into an atom.
- `Files` holds the log files, as a value.
- `Throttle` holds the rolling-window filter.
- `Pipeline` is the specification of one `checkAndReport` invocation, as a
  function of the file store, the last accepted time and the calculator's
  tier state of charge.
- `Reporter` is the imperative reporter. The class `ChargeStatsReporter`
  has the fields `logEventTimeSecs` and `tierSoc`. Its methods fill `int`
  arrays in place, with loops, and each method is proved against the
  specification functions above.

Behaviours of the code worth noting:

- The throttle accepts an event only when it comes strictly more than 15
  seconds after the last accepted one (`last + 15 < now`). An event exactly
  15 seconds later is rejected (`Throttle.Boundary`). A boot time of zero is
  always rejected.
- The charger-metrics override takes the first PDO line of that log that
  converts all seven words, and stops there (`ChargeStats.FirstPdoFirst`).
- A valid PCA line overwrites slots 12, 13, 14 and 16 even when the wireless
  adapter lines already filled them (`ChargeStats.PcaBesideWireless`).
  Slots 0, 10, 11 and 15 are left to the wireless data in that case.
- The head-line fallback tries CSI, then AACR, then baseline. Each attempt
  stores its conversions over those of the previous attempt. A line that
  stops one value short of the CSI format fails the CSI attempt and matches
  the AACR attempt. Slot 8 then keeps the ninth value that the failed CSI
  attempt stored (`ChargeStats.NineValueLine`).

## Model

| member | source | states |
|---|---|---|
| Scanf.Run | pixelstats/ChargeStatsReporter.cpp:87-88 | sscanf stores at most one value per conversion of the format, and stores all of them when the whole format matched |
| Scanf.RunFits | pixelstats/ChargeStatsReporter.cpp:87-88 | each stored value has the kind its conversion asks for: an integer for %d, a non-negative integer for %x, a lexeme for %f |
| Scanf.Step | pixelstats/ChargeStatsReporter.cpp:109 | one directive stores one value exactly when it is a conversion, of the conversion's kind |
| Scanf.Slots | pixelstats/ChargeStatsReporter.cpp:114-115 | the target arguments of a format are its conversions, in order |
| Scanf.Store | pixelstats/ChargeStatsReporter.cpp:87-104 | storing through &tmp[base].. writes the converted values at base.. and leaves every other slot unchanged |
| Scanf.Ints | pixelstats/ChargeStatsReporter.cpp:43-45 | integer conversions carry exactly the given integers |
| Scanf.SkipTwice | pixelstats/ChargeStatsReporter.cpp:43 | skipping white space is idempotent, so a blank in a format followed by a conversion's own skip is one skip |
| Scanf.NoFurtherInt | pixelstats/ChargeStatsReporter.cpp:93-94 | when no integer follows the blank, a format that goes on with " %d" converts nothing more |
| Scanf.IntFormatScan | pixelstats/ChargeStatsReporter.cpp:43-45 | a format without %f only ever converts integers |
| Scanf.RunAppend | pixelstats/ChargeStatsReporter.cpp:87-101 | scanning a longer format first does everything the shorter prefix format does, and goes on only if that prefix matched in full |
| Scanf.StopsShort | pixelstats/ChargeStatsReporter.cpp:87-101 | a format ending in a conversion that fails to match converts fewer values than it has conversions |
| Scanf.ExtendedScan | pixelstats/ChargeStatsReporter.cpp:87-101 | the conversions of a prefix format are a prefix of those of the longer format, and are all of them when the prefix fails part-way |
| Scanf.DigitChar | pixelstats/ChargeStatsReporter.cpp:114-115 | the printed digit has the digit value asked for |
| Scanf.Show | pixelstats/ChargeStatsReporter.cpp:114-115 | printing a number in a base gives a non-empty run of digits of that base |
| Scanf.ValueShow | pixelstats/ChargeStatsReporter.cpp:114-115 | the value of a printed number is the number |
| Scanf.ReadShow | pixelstats/ChargeStatsReporter.cpp:114-115 | reading the digits of a printed number gives the number back and stops at the first non-digit |
| Scanf.FloatLenAppend | pixelstats/ChargeStatsReporter.cpp:205 | a %f lexeme followed by a character that cannot continue a number is read exactly, without the rest |
| Scanf.ReadFloatToken | pixelstats/ChargeStatsReporter.cpp:205 | %f splits a printed lexeme plus the rest into that lexeme and that rest |
| Scanf.ReadDecToken | pixelstats/ChargeStatsReporter.cpp:87-88 | %d reads back any printed integer, negative or not, and leaves the rest |
| Scanf.ReadToken | pixelstats/ChargeStatsReporter.cpp:87-88 | every conversion reads back the token printed for its value and leaves the rest |
| Scanf.TokenStart | pixelstats/ChargeStatsReporter.cpp:87-88 | a printed token is non-empty and does not start with white space |
| Scanf.StepRendered | pixelstats/ChargeStatsReporter.cpp:87-88 | one directive consumes exactly its own part of a printed line |
| Scanf.RenderScan | pixelstats/ChargeStatsReporter.cpp:87-88 | scanning a line printed with a separated format gives back every printed value and leaves the tail unread |
| Formats.ChgStatsFormats | pixelstats/ChargeStatsReporter.cpp:43-45 | the three charge-stats formats have 7, 8 and 10 integer conversions, the AACR format is the baseline one with " %d" appended, and the CSI format is the AACR one with " %d,%d" appended |
| Formats.AacrExtendsBaseline | pixelstats/ChargeStatsReporter.cpp:43-44 | the AACR format is the baseline format followed by a blank and one %d |
| Formats.CsiExtendsAacr | pixelstats/ChargeStatsReporter.cpp:44-45 | the CSI format is the AACR format followed by " %d,%d" |
| Formats.AdapterTypeFormat | pixelstats/ChargeStatsReporter.cpp:109 | "A:%d" converts one integer |
| Formats.AdapterCapsFormat | pixelstats/ChargeStatsReporter.cpp:114-115 | the adapter-capabilities format converts seven integers |
| Formats.PcaFormat | pixelstats/ChargeStatsReporter.cpp:124-125 | the PCA format converts seven integers |
| Formats.PdoFormat | pixelstats/ChargeStatsReporter.cpp:146-147 | the PDO format converts seven integers |
| Formats.TierFormat | pixelstats/ChargeStatsReporter.cpp:205-207 | the voltage-tier format has sixteen conversions, the second one %f and all others %d |
| Formats.RoundTrip | pixelstats/ChargeStatsReporter.cpp:43-45 | any integers printed with a %d layout scan back to the same integers, with the tail left unread |
| Formats.LayoutSlots | pixelstats/ChargeStatsReporter.cpp:43-45 | a layout's conversions are its first conversion and then its fields' conversions |
| Formats.SlotsAppend | pixelstats/ChargeStatsReporter.cpp:43-45 | the conversions of a concatenated format are those of its parts, in order |
| Text.GetLine | pixelstats/ChargeStatsReporter.cpp:277 | std::getline fails exactly on exhausted input, and otherwise consumes at least one character |
| Text.GetLineNoNewline | pixelstats/ChargeStatsReporter.cpp:314 | a line read by std::getline holds no newline |
| Text.LinesUnlines | pixelstats/ChargeStatsReporter.cpp:314-316 | reading back lines written with newlines gives the same lines |
| Text.UnlinesLines | pixelstats/ChargeStatsReporter.cpp:314-316 | writing out the lines read from a text gives the text back, with a newline added at the end if it lacked one |
| Text.NewlineAtLineEnd | pixelstats/ChargeStatsReporter.cpp:277 | a line ends at a newline, or at the end of the input |
| Text.NoNewlineBefore | pixelstats/ChargeStatsReporter.cpp:277 | no newline comes before the end of the line |
| Atoms.PlaceAt | pixelstats/ChargeStatsReporter.cpp:158-161 | with distinct positions every value lands at its own field, and every field no value targets keeps the default |
| Atoms.PrefixTargets | pixelstats/ChargeStatsReporter.cpp:158 | the first fields_size fields are distinct and in range, and none of the later fields' positions is among them |
| Atoms.PlaceStep | pixelstats/ChargeStatsReporter.cpp:158-161 | one more loop iteration writes one more value at its position over the atom so far |
| ChargeStats.HeadTmp | pixelstats/ChargeStatsReporter.cpp:87-104 | a kept head line gives a record of all 17 slots, of which the line's conversions fill 7 to 10 and the rest stay zero; HeadFallback states which |
| ChargeStats.HeadFallback | pixelstats/ChargeStatsReporter.cpp:87-104 | the head line is kept exactly when the CSI scan converts at least seven values, and the slots are then what the CSI scan stored over zeros |
| ChargeStats.CsiLine | pixelstats/ChargeStatsReporter.cpp:87-88 | a line printed with the CSI format gives its ten values and zeros in the other slots |
| ChargeStats.AacrLine | pixelstats/ChargeStatsReporter.cpp:93-94 | a line printed with the AACR format gives its eight values and zeros in the other slots |
| ChargeStats.BaselineLine | pixelstats/ChargeStatsReporter.cpp:100-101 | a line printed with the baseline format gives its seven values and zeros in the other slots |
| ChargeStats.BaselineScan | pixelstats/ChargeStatsReporter.cpp:87-101 | when a baseline line has no further integer, the CSI scan converts exactly the baseline's seven values |
| ChargeStats.NineValueLine | pixelstats/ChargeStatsReporter.cpp:87-104 | a line that stops one value short of the CSI format converts nine values with the CSI format and eight with the AACR format, and its record keeps all nine values, slot 8 coming from the failed CSI attempt |
| ChargeStats.BaselineNesting | pixelstats/ChargeStatsReporter.cpp:43-45 | the CSI format is the baseline format followed by " %d %d,%d" |
| ChargeStats.StoreZeros | pixelstats/ChargeStatsReporter.cpp:81-88 | storing values over zeroed slots gives the values followed by zeros |
| ChargeStats.ClearedHead | pixelstats/ChargeStatsReporter.cpp:100-104 | a log that was cleared to "0" is not reported as a charge session |
| ChargeStats.WirelessStage | pixelstats/ChargeStatsReporter.cpp:106-120 | the wireless stage keeps all 17 slots |
| ChargeStats.WirelessSlots | pixelstats/ChargeStatsReporter.cpp:106-120 | a converted adapter-type line sets slot 0 to the translated mode and writes the capability words converted into slots 10 onwards, leaving the other slots alone; all seven words report all 17 slots |
| ChargeStats.WirelessIgnored | pixelstats/ChargeStatsReporter.cpp:106-111 | without a converted adapter-type line the capabilities line is never read |
| ChargeStats.PcaStage | pixelstats/ChargeStatsReporter.cpp:122-141 | the PCA stage keeps all 17 slots |
| ChargeStats.PcaStageSlots | pixelstats/ChargeStatsReporter.cpp:124-139 | a parsed PCA line sets slots 12, 13, 14 and 16, and, without a wireless adapter-type line, the PPS adapter type and slots 10, 11 and 15 |
| ChargeStats.PcaStageFrame | pixelstats/ChargeStatsReporter.cpp:122-141 | a PCA line that does not convert all seven words changes nothing; a converted one reports all 17 slots, keeps head slots 1 to 9, and beside a wireless adapter-type line also keeps slots 0, 10, 11 and 15 |
| ChargeStats.PcaPrecedence | pixelstats/ChargeStatsReporter.cpp:122-141 | in the assembled record, slots 12, 13 and 14 hold the PCA receiver-state words, and slot 16 does too unless the charger-metrics log overrides it |
| ChargeStats.PcaWithoutWireless | pixelstats/ChargeStatsReporter.cpp:133-139 | without a wireless adapter line, a PCA line forces the PPS adapter type and sets slots 10, 11 and 15 (15 unless overridden) |
| ChargeStats.PcaBesideWireless | pixelstats/ChargeStatsReporter.cpp:122-141 | with a wireless adapter line, a PCA line changes no slot other than 12, 13, 14 and 16 |
| ChargeStats.PcaKeepsWireless | pixelstats/ChargeStatsReporter.cpp:133 | with a wireless adapter line, the PCA stage leaves every slot but 12, 13, 14 and 16 as it was |
| ChargeStats.FirstPdo | pixelstats/ChargeStatsReporter.cpp:145-155 | a found PDO line has seven words |
| ChargeStats.FirstPdoFirst | pixelstats/ChargeStatsReporter.cpp:145-155 | a PDO line is found exactly when some line converts all seven words, and the words are those of the first such line |
| ChargeStats.FirstPdoAppend | pixelstats/ChargeStatsReporter.cpp:153 | once a PDO line is found, later lines do not matter |
| ChargeStats.OverrideStage | pixelstats/ChargeStatsReporter.cpp:143-156 | the override keeps all 17 slots |
| ChargeStats.OverrideSlotsKept | pixelstats/ChargeStatsReporter.cpp:143-156 | the override changes only slots 15 and 16, and nothing at all when there is no PDO line |
| ChargeStats.OverrideSlots | pixelstats/ChargeStatsReporter.cpp:143-156 | a readable charger-metrics log with a PDO line sets slot 15 to the APDO word and slot 16 to the PDO word; every other slot and fields_size are as without that log |
| ChargeStats.ChargeDraft | pixelstats/ChargeStatsReporter.cpp:87-156 | a record is produced exactly when the head line is kept; it has 17 slots and reports at most 17 |
| ChargeStats.Stages | pixelstats/ChargeStatsReporter.cpp:106-156 | the wireless, PCA and override stages keep 17 slots and report at most 17 |
| ChargeStats.ChargeSize | pixelstats/ChargeStatsReporter.cpp:81-141 | all 17 fields are reported exactly when the wireless capabilities or a PCA line converted in full; otherwise 10 |
| ChargeStats.ChargeAtomValues | pixelstats/ChargeStatsReporter.cpp:158-165 | the charge-stats atom holds slot i at field i for the first fields_size fields, and the default value in the others |
| TierStats.TierConvs | pixelstats/ChargeStatsReporter.cpp:205-207 | a converted tier line holds a float in its second conversion and integers in the rest |
| TierStats.TierScanKinds | pixelstats/ChargeStatsReporter.cpp:205-207 | a tier scan converts at most sixteen values, and the only float is the second |
| TierStats.PowerSlots | pixelstats/ChargeStatsReporter.cpp:215-218 | the wireless figures fill four slots |
| TierStats.TierTmp | pixelstats/ChargeStatsReporter.cpp:202-218 | tmp holds the first integer, then the fourteen integers after the float, then the four wireless figures (zero without wireless) |
| TierStats.TierFieldValues | pixelstats/ChargeStatsReporter.cpp:223-230 | field 0 is tmp[0], field 1 is the float and field i is tmp[i-1] for the rest |
| TierStats.TierReport | pixelstats/ChargeStatsReporter.cpp:171-238 | a tier line is reported exactly when all sixteen values convert, as a voltage-tier atom of 20 fields; without wireless the calculator's state is untouched |
| TierStats.TierKept | pixelstats/ChargeStatsReporter.cpp:212-234 | a kept line gives a voltage-tier atom of 20 fields; without wireless the calculator's state is untouched |
| TierStats.TierValuesAt | pixelstats/ChargeStatsReporter.cpp:212-230 | the reported values are the line's values in order, followed, with wireless, by minimum, average and maximum power out and operating frequency |
| TierStats.PlacedFields | pixelstats/ChargeStatsReporter.cpp:227-230 | the first fields_size fields hold the values and the later fields keep the default |
| TierStats.TierAtomValues | pixelstats/ChargeStatsReporter.cpp:205-234 | every converted value of a tier line lands at its field, the state of charge as a float, and with wireless the calculator's four figures land at fields 16 to 19 |
| TierStats.TierRoundTrip | pixelstats/ChargeStatsReporter.cpp:205-207 | a tier line printed with the tier format scans back to the same sixteen values |
| Files.ClearFile | pixelstats/ChargeStatsReporter.cpp:282-284 | clearing succeeds exactly when the path is writable, leaves "0" in it, and touches no other file |
| Throttle.Boundary | pixelstats/ChargeStatsReporter.cpp:255 | an event exactly 15 seconds after the last accepted one is rejected, and one second later it is accepted |
| Throttle.AcceptedAfter | pixelstats/ChargeStatsReporter.cpp:248-261 | every accepted time is non-zero, one of the events, and, when a last accepted time was set (non-zero), more than 15 seconds after it |
| Throttle.AcceptedSpread | pixelstats/ChargeStatsReporter.cpp:248-261 | any two accepted events are more than 15 seconds apart |
| Pipeline.CheckContentsAndAck | pixelstats/ChargeStatsReporter.cpp:346-356 | a log is consumed exactly when it is readable and clearing it succeeds; its contents are returned, it then reads "0", and no other file changes |
| Pipeline.TierLines | pixelstats/ChargeStatsReporter.cpp:314-316 | a log gives at most one tier atom per line |
| Pipeline.TierLinesAtoms | pixelstats/ChargeStatsReporter.cpp:314-343 | the lines of a log give only voltage-tier atoms, and without wireless the calculator's state is unchanged |
| Pipeline.HeadsOf | pixelstats/ChargeStatsReporter.cpp:291-310 | without a PCA log the PCA line is empty, and without a wireless log the wireless lines and contents are empty |
| Pipeline.HeadLines | pixelstats/ChargeStatsReporter.cpp:291-310 | the PCA line is the first getline line of the PCA log, and the adapter-type and capabilities lines are the first and second lines of the wireless log; a missing line is empty |
| Pipeline.ChargeAtoms | pixelstats/ChargeStatsReporter.cpp:312 | an invocation reports at most one charge-stats atom, exactly when the head line is kept |
| Pipeline.AckMetricsLogs | pixelstats/ChargeStatsReporter.cpp:318-343 | acknowledging the three metrics logs changes no other file, and a file that read "0" still reads "0" |
| Pipeline.ConsumeMetrics | pixelstats/ChargeStatsReporter.cpp:318-343 | consuming the metrics logs changes no other file, and a file that read "0" still reads "0" |
| Pipeline.Acknowledged | pixelstats/ChargeStatsReporter.cpp:346-356 | it is what checkContentsAndAck returns for a log: the contents exactly when the log is readable and can be cleared |
| Pipeline.AckMetricsContents | pixelstats/ChargeStatsReporter.cpp:318-343 | with three different metrics logs, each returns its contents as they were before any of them was consumed, and each one consumed then reads "0" while the others are as before |
| Pipeline.MetricsAtomsLines | pixelstats/ChargeStatsReporter.cpp:318-325 | a consumed metrics log gives the tier atoms of its lines without wireless figures, and a log not consumed gives none |
| Pipeline.ConsumeMetricsOrder | pixelstats/ChargeStatsReporter.cpp:318-343 | with three different metrics logs, the atoms are those of the thermal log's lines, then the charger log's, then the dual-battery log's, and each consumed log then reads "0" |
| Pipeline.ConsumeMetricsAtoms | pixelstats/ChargeStatsReporter.cpp:318-343 | the metrics logs give only voltage-tier atoms |
| Pipeline.NothingToRead | pixelstats/ChargeStatsReporter.cpp:270-280 | an unreadable or empty log changes nothing and reports nothing |
| Pipeline.Throttled | pixelstats/ChargeStatsReporter.cpp:282-289 | a throttled event only clears the log, and reports nothing |
| Pipeline.InvocationClears | pixelstats/ChargeStatsReporter.cpp:270-289 | after an invocation on a log with a line, a writable log reads "0" and the last accepted time has advanced as the throttle says |
| Pipeline.InvocationAtoms | pixelstats/ChargeStatsReporter.cpp:286-343 | the first atom is a charge-stats atom exactly when the event is accepted and the head line is kept, and every later atom is a voltage-tier atom |
| Pipeline.AcceptedAtoms | pixelstats/ChargeStatsReporter.cpp:291-343 | an accepted event reports the charge atom first, exactly when the head line is kept, and only voltage-tier atoms after it |
| Pipeline.LeadingCharge | pixelstats/ChargeStatsReporter.cpp:312-343 | the charge atom, if any, comes before all tier atoms |
| Pipeline.OverrideReadsUnconsumed | pixelstats/ChargeStatsReporter.cpp:143-156 | the charge atom is built from the charger-metrics log as it was before the metrics logs were consumed |
| Pipeline.ClearedLogSilent | pixelstats/ChargeStatsReporter.cpp:87-104 | a log that was cleared to "0" never produces a charge-stats atom |
| Reporter.Sscanf | pixelstats/ChargeStatsReporter.cpp:87-88 | sscanf into an int array returns the number of conversions and stores them from the base slot on, leaving the other slots |
| Reporter.ScanHead | pixelstats/ChargeStatsReporter.cpp:87-104 | the head scan succeeds exactly when the head line is kept, and leaves the slots the fallback chain specifies |
| Reporter.ScanWireless | pixelstats/ChargeStatsReporter.cpp:106-120 | the wireless block updates the slots and fields_size as the wireless stage specifies |
| Reporter.ScanPca | pixelstats/ChargeStatsReporter.cpp:122-141 | the PCA block updates the slots and fields_size as the PCA stage specifies |
| Reporter.ScanPdoLine | pixelstats/ChargeStatsReporter.cpp:146-153 | one PDO line converts all seven words exactly when it is taken, and then sets only slots 15 and 16 |
| Reporter.ScanPdoLines | pixelstats/ChargeStatsReporter.cpp:143-156 | the getline loop over the charger-metrics log leaves the slots the override specifies |
| Reporter.PlaceInts | pixelstats/ChargeStatsReporter.cpp:158-161 | the dense-mapping loop writes the atom the placement specifies |
| Reporter.ScanTier | pixelstats/ChargeStatsReporter.cpp:205-210 | the tier sscanf returns the number of conversions, and when it is sixteen stores the state of charge and the fifteen integers in tmp |
| Reporter.StoreTierConvs | pixelstats/ChargeStatsReporter.cpp:205-207 | storing the tier conversions puts the integers in tmp in order, skipping the float |
| Reporter.PlaceTier | pixelstats/ChargeStatsReporter.cpp:223-230 | the tier value loop writes the atom the placement specifies |
| Reporter.ReportKeptTier | pixelstats/ChargeStatsReporter.cpp:212-234 | a kept tier line gives the outcome TierKept specifies |
| Reporter.TierLineOutcome | pixelstats/ChargeStatsReporter.cpp:171-238 | one tier line gives the atom and calculator state TierReport specifies |
| Reporter.TierLinesOutcome | pixelstats/ChargeStatsReporter.cpp:314-316 | the getline loop over a log gives the atoms and calculator state TierLines specifies |
| Reporter.ChargeStatsReporter.constructor | pixelstats/ChargeStatsReporter.cpp:47 | a new reporter has accepted no event yet and the calculator's tier state of charge is zero |
| Reporter.ChargeStatsReporter.ShouldReportEvent | pixelstats/ChargeStatsReporter.cpp:248-261 | the event is accepted exactly when the throttle accepts it, and only then is the last accepted time set to now |
| Reporter.ChargeStatsReporter.ReportChargeStats | pixelstats/ChargeStatsReporter.cpp:53-169 | a charge-stats atom is reported exactly when the head line is kept, and it is the atom of the assembled record |
| Reporter.ChargeStatsReporter.ReportVoltageTierStats | pixelstats/ChargeStatsReporter.cpp:171-238 | one tier line is reported as TierReport specifies, and the calculator's state moves as it says |
| Reporter.ChargeStatsReporter.ReportTierLines | pixelstats/ChargeStatsReporter.cpp:314-316 | every line of a log is reported in turn, as TierLines specifies |
| Reporter.ChargeStatsReporter.ReportMetricsLog | pixelstats/ChargeStatsReporter.cpp:318-325 | a metrics log is consumed and reported without wireless figures, and the calculator's state is unchanged |
| Reporter.ChargeStatsReporter.ReportAccepted | pixelstats/ChargeStatsReporter.cpp:291-343 | an accepted event reports and clears what the specification of an accepted invocation says |
| Reporter.ChargeStatsReporter.CheckAndReport | pixelstats/ChargeStatsReporter.cpp:263-344 | one invocation leaves the files, the throttle's last time and the calculator's state, and reports the atoms, exactly as Pipeline.Invocation specifies |

## Left out

- The clock: `getTimeSecs` (lines 49-51) reads the boot-time clock. The model takes `now` as a parameter of `CheckAndReport` and `ShouldReportEvent`. The 64-bit range of that time is not modelled, because integers are unbounded.
- File I/O is a value `FileStore`: a map from paths to contents and a set of paths whose writes fail. The model leaves out errno, partial reads and writes, and files that change between reads.
- `IStats.reportVendorAtom`: the model returns the atoms in the order they are reported. The service's status, which the reporter only logs, is left out, and so is the empty reverse domain name.
- Logging (`ALOGD`, `ALOGE`, `ALOGW`) is left out, because it has no effect on state.
- The PCA and wireless helpers are left out, because their code is not part of this model: `CheckPcaContentsAndAck`, `CheckWirelessContentsAndAck`, `TranslateSysModeToAtomValue` and `CalculateWirelessChargeStats`. They are parameters in `Pipeline.Collaborators`:
  - the PCA and wireless log contents, when their acknowledgement succeeds;
  - a translation function for the adapter type;
  - a `Calculator` from the tier state of charge, the state-of-charge lexeme and the wireless log to the four wireless figures and the next tier state of charge.
- The calculator receives `static_cast<int>(ssoc_tmp)`. In the model it receives the `%f` lexeme, so the truncation to an integer happens inside the calculator.
- The reporter's tier state of charge stands for `wireless_charge_stats_.tier_soc_`. The model takes its initial value to be 0.
- Scanf.ReadConv: `%x` reads hex digits only. The optional sign and the `0x` prefix that C's `%x` also accepts are not modelled. The model assumes that the logs print bare hex words, with no sign and no prefix.
- Scanf.FloatLen: `%f` reads an optional sign, decimal digits and an optional point with more digits. The exponent, `inf`, `nan` and hexadecimal floats are not modelled. The float value itself is kept as its lexeme, so the model does no floating-point arithmetic.
- Scanf.ReadConv: a `%x` word is kept as a non-negative unbounded integer. The source stores it into `int32_t` slots (`tmp`, `pca_ac`, `pca_rs`), where a word of 0x80000000 or more becomes negative; that conversion is not modelled.
- Scanf.ReadDec: the value of `%d` is an unbounded integer. The 32-bit range of `int32_t` and the undefined behaviour of out-of-range input are not modelled.
- Scanf.Run: the `EOF` result that `sscanf` returns for input that is empty or only white space is folded into zero conversions. Every caller compares the count with the full number of conversions, so EOF and zero behave the same.
- Atoms.Schema: the protocol-buffer field numbers, `kVendorAtomOffset` and `ADAPTER_TYPE_USB_PD_PPS` come from the generated atom definitions, which are not part of this model. They are parameters in `Schema`. Their one-to-one mapping onto the atom's positions is stated as `ValidSchema`.
