/**
 * Telemetry atoms and the dense schema mapping. An atom is a vector of
 * values indexed by a field's protocol-buffer field number minus a fixed
 * offset; every position that no field writes keeps the default value.
 */
module Atoms {

  /** One value of a vendor atom: an integer, or a floating-point number kept as its decimal lexeme. */
  datatype AtomValue = IntValue(i: int) | FloatValue(lexeme: string)

  /** The value of a default-constructed vendor atom value: its first alternative, integer 0. */
  const Unset := IntValue(0)

  datatype AtomId = ChargeStatsAtom | VoltageTierStatsAtom

  /** A vendor atom as reported to the stats service. */
  datatype VendorAtom = VendorAtom(atomId: AtomId, values: seq<AtomValue>)

  /**
   * The constants of the pixel atoms definitions the reporter relies on:
   * the field numbers of the charge-stats and voltage-tier atoms, in the
   * reporter's declared order, the offset between a field number and its
   * position in an atom, and the enumerator of the PPS adapter type.
   */
  datatype Schema = Schema(chargeFields: seq<int>, tierFields: seq<int>, offset: int, ppsAdapterType: int)

  const ChgFieldsSize := 17
  const VtierFieldsSize := 20

  /** The positions that a list of field numbers maps to. */
  function Targets(fields: seq<int>, offset: int): (r: seq<int>)
    ensures |r| == |fields| && forall i :: 0 <= i < |fields| ==> r[i] == fields[i] - offset
  {
    seq(|fields|, i requires 0 <= i < |fields| => fields[i] - offset)
  }

  /** Positions that all lie in a vector of the given width. */
  predicate InRange(targets: seq<int>, width: nat) {
    forall i :: 0 <= i < |targets| ==> 0 <= targets[i] < width
  }

  predicate Distinct(targets: seq<int>) {
    forall i, j :: 0 <= i < j < |targets| ==> targets[i] != targets[j]
  }

  /** A field list that maps one to one onto the positions of an atom of the given width. */
  predicate Dense(fields: seq<int>, offset: int, width: nat) {
    |fields| == width && InRange(Targets(fields, offset), width) && Distinct(Targets(fields, offset))
  }

  predicate ValidSchema(s: Schema) {
    Dense(s.chargeFields, s.offset, ChgFieldsSize) && Dense(s.tierFields, s.offset, VtierFieldsSize)
  }

  function ChargeTargets(s: Schema): seq<int> { Targets(s.chargeFields, s.offset) }
  function TierTargets(s: Schema): seq<int> { Targets(s.tierFields, s.offset) }

  /**
   * A vector of width default values after writing vals[i] at targets[i]
   * for i = 0, 1, ... in turn.
   */
  function Place(width: nat, targets: seq<int>, vals: seq<AtomValue>): (r: seq<AtomValue>)
    requires |targets| == |vals| && InRange(targets, width)
    ensures |r| == width
    decreases |vals|
  {
    if vals == [] then seq(width, _ => Unset)
    else
      var n := |vals| - 1;
      Place(width, targets[..n], vals[..n])[targets[n] := vals[n]]
  }

  /**
   * With distinct positions, every value lands at its own position, and
   * every position that no value targets keeps the default.
   */
  lemma {:induction false} PlaceAt(width: nat, targets: seq<int>, vals: seq<AtomValue>)
    requires |targets| == |vals| && InRange(targets, width) && Distinct(targets)
    ensures forall i :: 0 <= i < |vals| ==> Place(width, targets, vals)[targets[i]] == vals[i]
    ensures forall j :: 0 <= j < width && j !in targets ==> Place(width, targets, vals)[j] == Unset
    decreases |vals|
  {
    if vals != [] {
      var n := |vals| - 1;
      PlaceAt(width, targets[..n], vals[..n]);
      var r := Place(width, targets, vals);
      forall i | 0 <= i < n
        ensures r[targets[i]] == vals[i]
      {
        assert targets[..n][i] == targets[i];
      }
      forall j | 0 <= j < width && j !in targets
        ensures r[j] == Unset
      {
        assert j !in targets[..n];
      }
    }
  }

  /** The integer values of a list of slots. */
  function IntValues(tmp: seq<int>): (r: seq<AtomValue>)
    ensures |r| == |tmp| && forall i :: 0 <= i < |tmp| ==> r[i] == IntValue(tmp[i])
  {
    seq(|tmp|, i requires 0 <= i < |tmp| => IntValue(tmp[i]))
  }

  /** A prefix of distinct in-range positions is again distinct and in range, and misses every later position. */
  lemma PrefixTargets(t: seq<int>, width: nat, k: nat)
    requires k <= |t| && InRange(t, width) && Distinct(t)
    ensures InRange(t[..k], width) && Distinct(t[..k])
    ensures forall i :: k <= i < |t| ==> t[i] !in t[..k]
  {
  }

  /** Placing one more value: the vector so far, with that value written at its position. */
  lemma PlaceStep(width: nat, targets: seq<int>, vals: seq<AtomValue>, i: nat)
    requires |targets| == |vals| && InRange(targets, width) && i < |vals|
    ensures InRange(targets[..i], width) && InRange(targets[..i + 1], width)
    ensures Place(width, targets[..i + 1], vals[..i + 1]) == Place(width, targets[..i], vals[..i])[targets[i] := vals[i]]
  {
    assert targets[..i + 1][..i] == targets[..i];
    assert vals[..i + 1][..i] == vals[..i];
  }
}
