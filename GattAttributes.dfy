/**
 * Display names for GATT services and characteristics.
 *
 * `Lookup` first looks the lower-cased UUID up in a fixed table; failing that
 * it makes a name from the default label and the 16-bit alias carried in
 * characters 4..8 of the UUID, with a " *" marker when the UUID is not built
 * on the Bluetooth Base UUID (Bluetooth Core Specification, Vol 3, Part B,
 * section 2.5.1).
 */
module GattAttributes {

  /** The Bluetooth Base UUID, in lower case. */
  const BaseUuid: string := "00000000-0000-1000-8000-00805f9b34fb"

  const HeartRateMeasurement: string := "00002a37-0000-1000-8000-00805f9b34fb"
  const BatteryLevel: string := "00002a19-0000-1000-8000-00805f9b34fb"
  const CustomMeasurement: string := "befdff11-c979-11e1-9b21-0800200c9a66"
  const TestMode: string := "befdff12-c979-11e1-9b21-0800200c9a66"

  /** The fixed table of known services and characteristics; keys are lower case. */
  const Attributes: map<string, string> := map[
    // Services
    "00001800-0000-1000-8000-00805f9b34fb" := "Generic Access",
    "00001801-0000-1000-8000-00805f9b34fb" := "Generic Attribute",
    "0000180a-0000-1000-8000-00805f9b34fb" := "Device Information Service",
    "0000180d-0000-1000-8000-00805f9b34fb" := "Heart Rate Service",
    "0000180f-0000-1000-8000-00805f9b34fb" := "Battery Service",
    "befdffb0-c979-11e1-9b21-0800200c9a66" := "Firmware Update Service",
    "befdff10-c979-11e1-9b21-0800200c9a66" := "HxM2 Custom Data Service",
    "fb005c80-02e7-f387-1cad-8acd2d8df0c8" := "PMD Service",
    // Characteristics
    "00002a00-0000-1000-8000-00805f9b34fb" := "Device Name",
    "00002a01-0000-1000-8000-00805f9b34fb" := "Appearance",
    "00002a02-0000-1000-8000-00805f9b34fb" := "Peripheral Privacy Flag",
    "00002a03-0000-1000-8000-00805f9b34fb" := "Reconnection Address",
    "00002a04-0000-1000-8000-00805f9b34fb" := "Peripheral Preferred Connection Properties",
    "00002a05-0000-1000-8000-00805f9b34fb" := "Service Changed",
    "00002a23-0000-1000-8000-00805f9b34fb" := "System ID",
    "00002a24-0000-1000-8000-00805f9b34fb" := "Model Number String",
    "00002a25-0000-1000-8000-00805f9b34fb" := "Serial Number String",
    "00002a26-0000-1000-8000-00805f9b34fb" := "Firmware Revision String",
    "00002a27-0000-1000-8000-00805f9b34fb" := "Hardware Revision String",
    "00002a28-0000-1000-8000-00805f9b34fb" := "Software Revision String",
    "00002a29-0000-1000-8000-00805f9b34fb" := "Manufacturer name String",
    "00002a38-0000-1000-8000-00805f9b34fb" := "Body Sensor Location",
    "00002a39-0000-1000-8000-00805f9b34fb" := "Heart Rate Control Point",
    "00002a50-0000-1000-8000-00805f9b34fb" := "PnP ID",
    "00002a2a-0000-1000-8000-00805f9b34fb" := "IEEE Regulatory Certification Data List",
    HeartRateMeasurement := "Heart Rate Measurement",
    BatteryLevel := "Battery Level",
    CustomMeasurement := "Custom Measurement",
    TestMode := "Test Mode",
    "befdffb1-c979-11e1-9b21-0800200c9a66" := "Firmware Update Status",
    "befdffb2-c979-11e1-9b21-0800200c9a66" := "Firmware Image Data",
    // Polar
    "fb005c81-02e7-f387-1cad-8acd2d8df0c8" := "PMD Control Point",
    "fb005c82-02e7-f387-1cad-8acd2d8df0c8" := "PMD Data MTU Characteristic"
  ]

  // ---------------------------------------------------------------------
  // Case mapping (ASCII letters; every other character maps to itself)
  // ---------------------------------------------------------------------

  function LowerChar(c: char): char {
    if 'A' <= c <= 'Z' then (c as int - 'A' as int + 'a' as int) as char else c
  }

  function UpperChar(c: char): char {
    if 'a' <= c <= 'z' then (c as int - 'a' as int + 'A' as int) as char else c
  }

  /** `String.toLowerCase`. */
  function ToLower(s: string): (r: string)
    ensures |r| == |s|
    ensures forall i :: 0 <= i < |s| ==> r[i] == LowerChar(s[i])
  {
    seq(|s|, i requires 0 <= i < |s| => LowerChar(s[i]))
  }

  /** The character test of `String.regionMatches` with `ignoreCase` set. */
  predicate CharsEqualIgnoringCase(a: char, b: char) {
    a == b || UpperChar(a) == UpperChar(b) || LowerChar(UpperChar(a)) == LowerChar(UpperChar(b))
  }

  /** Two characters match ignoring case exactly when their lower-case forms agree. */
  lemma CharsEqualIgnoringCaseIffSameLower(a: char, b: char)
    ensures CharsEqualIgnoringCase(a, b) <==> LowerChar(a) == LowerChar(b)
  {
  }

  // ---------------------------------------------------------------------
  // String.regionMatches(true, soff, t, toff, len)
  // ---------------------------------------------------------------------

  /** The `len` characters at `s[soff..]` and `t[toff..]` match ignoring case (both in bounds). */
  predicate CharsMatchFrom(s: string, soff: nat, t: string, toff: nat, len: nat)
    requires soff + len <= |s| && toff + len <= |t|
    decreases len
  {
    len == 0 ||
    (CharsEqualIgnoringCase(s[soff], t[toff]) && CharsMatchFrom(s, soff + 1, t, toff + 1, len - 1))
  }

  /** `s.regionMatches(true, soff, t, toff, len)`: false when either region runs past its string. */
  predicate RegionMatches(s: string, soff: nat, t: string, toff: nat, len: nat) {
    soff + len <= |s| && toff + len <= |t| && CharsMatchFrom(s, soff, t, toff, len)
  }

  /** `ToLower` distributes over concatenation. */
  lemma ToLowerAppend(a: string, b: string)
    ensures ToLower(a + b) == ToLower(a) + ToLower(b)
  {
  }

  /** The region comparison holds exactly when both regions fit and agree once lower-cased. */
  lemma {:induction false} RegionMatchesIffSameLower(s: string, soff: nat, t: string, toff: nat, len: nat)
    ensures RegionMatches(s, soff, t, toff, len) <==>
      soff + len <= |s| && toff + len <= |t| &&
      ToLower(s[soff..soff + len]) == ToLower(t[toff..toff + len])
  {
    if soff + len <= |s| && toff + len <= |t| {
      CharsMatchFromIffSameLower(s, soff, t, toff, len);
    }
  }

  /** Two strings of equal length agree once lower-cased iff their heads and their tails do. */
  lemma SameLowerCons(a: string, b: string)
    requires |a| == |b| > 0
    ensures ToLower(a) == ToLower(b) <==>
      LowerChar(a[0]) == LowerChar(b[0]) && ToLower(a[1..]) == ToLower(b[1..])
  {
    if LowerChar(a[0]) == LowerChar(b[0]) && ToLower(a[1..]) == ToLower(b[1..]) {
      forall i | 0 <= i < |a| ensures ToLower(a)[i] == ToLower(b)[i] {
        if i > 0 {
          assert ToLower(a[1..])[i - 1] == ToLower(b[1..])[i - 1];
        }
      }
    }
    if ToLower(a) == ToLower(b) {
      assert ToLower(a)[0] == ToLower(b)[0];
      forall i | 0 <= i < |a| - 1 ensures ToLower(a[1..])[i] == ToLower(b[1..])[i] {
        assert ToLower(a)[i + 1] == ToLower(b)[i + 1];
      }
    }
  }

  lemma {:induction false} CharsMatchFromIffSameLower(s: string, soff: nat, t: string, toff: nat, len: nat)
    requires soff + len <= |s| && toff + len <= |t|
    ensures CharsMatchFrom(s, soff, t, toff, len) <==>
      ToLower(s[soff..soff + len]) == ToLower(t[toff..toff + len])
    decreases len
  {
    if len > 0 {
      var a, b := s[soff..soff + len], t[toff..toff + len];
      assert a[0] == s[soff] && a[1..] == s[soff + 1..soff + len];
      assert b[0] == t[toff] && b[1..] == t[toff + 1..toff + len];
      SameLowerCons(a, b);
      CharsEqualIgnoringCaseIffSameLower(s[soff], t[toff]);
      CharsMatchFromIffSameLower(s, soff + 1, t, toff + 1, len - 1);
    }
  }

  // ---------------------------------------------------------------------
  // lookup(uuid, defaultName)
  // ---------------------------------------------------------------------

  /** The UUID names a table entry once lower-cased. */
  predicate IsKnown(uuid: string) {
    ToLower(uuid) in Attributes
  }

  /** The two region tests of `lookup`: the UUID agrees with the Base UUID outside characters 4..8. */
  predicate MatchesBaseUuid(uuid: string) {
    RegionMatches(uuid, 0, BaseUuid, 0, 4) && RegionMatches(uuid, 8, BaseUuid, 8, 28)
  }

  /**
   * The display name of `uuid`. The source's `substring(4, 8)` throws on an
   * unknown UUID shorter than 8 characters; that is the only input excluded.
   */
  function Lookup(uuid: string, defaultName: string): (name: string)
    requires IsKnown(uuid) || |uuid| >= 8
    ensures !IsKnown(uuid) ==>
      && (|name| == |defaultName| + 5 || |name| == |defaultName| + 6)
      && name[..|defaultName|] == defaultName
      && name[|name| - 4..] == uuid[4..8]
  {
    var key := ToLower(uuid);
    if key in Attributes then
      Attributes[key]
    else if MatchesBaseUuid(uuid) then
      defaultName + " " + uuid[4..8]
    else
      defaultName + " *" + uuid[4..8]
  }

  // ---------------------------------------------------------------------
  // Properties of Lookup
  // ---------------------------------------------------------------------

  /** The 128-bit UUID of a 16-bit alias: the Base UUID with the alias written into characters 4..8. */
  function AliasUuid(alias: string): (uuid: string)
    requires |alias| == 4
    ensures |uuid| == 36 && uuid[4..8] == alias
    ensures uuid[..4] == BaseUuid[..4] && uuid[8..] == BaseUuid[8..]
  {
    BaseUuid[..4] + alias + BaseUuid[8..]
  }

  /**
   * An independent statement of "built on the Base UUID": up to case, the
   * first 36 characters are the expansion of the UUID's own alias.
   */
  ghost predicate SharesBaseUuid(uuid: string) {
    |uuid| >= 36 && ToLower(uuid[..36]) == AliasUuid(ToLower(uuid[4..8]))
  }

  lemma BaseUuidIsLowerCase()
    ensures ToLower(BaseUuid[..4]) == BaseUuid[..4]
    ensures ToLower(BaseUuid[8..]) == BaseUuid[8..]
  {
    assert forall i :: 0 <= i < |BaseUuid| ==> LowerChar(BaseUuid[i]) == BaseUuid[i];
  }

  /** Concatenations of pieces of matching lengths are equal iff the pieces are. */
  lemma SplitEquality(x1: string, x2: string, x3: string, y1: string, y2: string, y3: string)
    requires |x1| == |y1| && |x2| == |y2|
    ensures x1 + x2 + x3 == y1 + y2 + y3 <==> x1 == y1 && x2 == y2 && x3 == y3
  {
    var x, y := x1 + x2 + x3, y1 + y2 + y3;
    if x == y {
      assert x1 == x[..|x1|] && y1 == y[..|y1|];
      assert x2 == x[|x1|..|x1| + |x2|] && y2 == y[|y1|..|y1| + |y2|];
      assert x3 == x[|x1| + |x2|..] && y3 == y[|y1| + |y2|..];
    }
  }

  /** The two region tests, read as comparisons with the lower-case parts of the Base UUID. */
  lemma {:induction false} MatchesBaseUuidIffParts(uuid: string)
    ensures MatchesBaseUuid(uuid) <==>
      |uuid| >= 36 && ToLower(uuid[..4]) == BaseUuid[..4] && ToLower(uuid[8..36]) == BaseUuid[8..]
  {
    RegionMatchesIffSameLower(uuid, 0, BaseUuid, 0, 4);
    RegionMatchesIffSameLower(uuid, 8, BaseUuid, 8, 28);
    BaseUuidIsLowerCase();
    assert BaseUuid[0..4] == BaseUuid[..4] && BaseUuid[8..36] == BaseUuid[8..];
    if |uuid| >= 36 {
      assert uuid[0..4] == uuid[..4] && uuid[8..8 + 28] == uuid[8..36];
    }
  }

  /** Sharing the Base UUID means agreeing with it, up to case, outside characters 4..8. */
  lemma {:induction false} SharesBaseUuidIffParts(uuid: string)
    ensures SharesBaseUuid(uuid) <==>
      |uuid| >= 36 && ToLower(uuid[..4]) == BaseUuid[..4] && ToLower(uuid[8..36]) == BaseUuid[8..]
  {
    if |uuid| >= 36 {
      var head, alias, tail := uuid[..4], uuid[4..8], uuid[8..36];
      assert uuid[..36] == head + alias + tail;
      ToLowerAppend(head + alias, tail);
      ToLowerAppend(head, alias);
      SplitEquality(ToLower(head), ToLower(alias), ToLower(tail), BaseUuid[..4], ToLower(alias), BaseUuid[8..]);
    }
  }

  /** The source's two region tests decide exactly `SharesBaseUuid`. */
  lemma {:induction false} MatchesBaseUuidIffSharesBase(uuid: string)
    ensures MatchesBaseUuid(uuid) <==> SharesBaseUuid(uuid)
  {
    MatchesBaseUuidIffParts(uuid);
    SharesBaseUuidIffParts(uuid);
  }

  /** A table hit wins, whatever the case of the input and whether or not it is built on the Base UUID. */
  lemma LookupKnown(uuid: string, defaultName: string)
    requires IsKnown(uuid)
    ensures Lookup(uuid, defaultName) == Attributes[ToLower(uuid)]
    ensures forall other :: ToLower(other) == ToLower(uuid) ==> Lookup(other, defaultName) == Lookup(uuid, defaultName)
  {
  }

  /** An unknown UUID built on the Base UUID is named by its alias, in the case it was given. */
  lemma {:induction false} LookupUnknownOnBase(uuid: string, defaultName: string)
    requires !IsKnown(uuid) && SharesBaseUuid(uuid)
    ensures Lookup(uuid, defaultName) == defaultName + " " + uuid[4..8]
  {
    MatchesBaseUuidIffSharesBase(uuid);
  }

  /** Any other unknown UUID is named by its characters 4..8 behind a " *" marker. */
  lemma {:induction false} LookupUnknownOffBase(uuid: string, defaultName: string)
    requires !IsKnown(uuid) && |uuid| >= 8 && !SharesBaseUuid(uuid)
    ensures Lookup(uuid, defaultName) == defaultName + " *" + uuid[4..8]
  {
    MatchesBaseUuidIffSharesBase(uuid);
  }

  /** A UUID shorter than 36 characters can never match the Base UUID, so unknown ones are starred. */
  lemma ShortUnknownIsStarred(uuid: string, defaultName: string)
    requires !IsKnown(uuid) && 8 <= |uuid| < 36
    ensures Lookup(uuid, defaultName) == defaultName + " *" + uuid[4..8]
  {
  }

  /** Round trip: expanding an alias and looking up an unlisted result gives the alias back. */
  lemma {:induction false} AliasRoundTrip(alias: string, defaultName: string)
    requires |alias| == 4 && !IsKnown(AliasUuid(alias))
    ensures Lookup(AliasUuid(alias), defaultName) == defaultName + " " + alias
  {
    var uuid := AliasUuid(alias);
    RegionMatchesIffSameLower(uuid, 0, BaseUuid, 0, 4);
    RegionMatchesIffSameLower(uuid, 8, BaseUuid, 8, 28);
    assert uuid[0..4] == BaseUuid[0..4] && uuid[8..36] == BaseUuid[8..36];
    assert MatchesBaseUuid(uuid);
  }

  lemma HeartRateUpperCaseLowers()
    ensures ToLower("0000180D-0000-1000-8000-00805F9B34FB") == "0000180d-0000-1000-8000-00805f9b34fb"
  {
    var uuid := "0000180D-0000-1000-8000-00805F9B34FB";
    var key := "0000180d-0000-1000-8000-00805f9b34fb";
    assert forall i :: 0 <= i < 36 ==> LowerChar(uuid[i]) == key[i];
  }

  /** The upper-case spelling of the Heart Rate service UUID finds its table entry. */
  lemma HeartRateServiceExample(defaultName: string)
    ensures IsKnown("0000180D-0000-1000-8000-00805F9B34FB")
    ensures Lookup("0000180D-0000-1000-8000-00805F9B34FB", defaultName) == "Heart Rate Service"
  {
    HeartRateUpperCaseLowers();
    assert Attributes["0000180d-0000-1000-8000-00805f9b34fb"] == "Heart Rate Service";
  }
}
