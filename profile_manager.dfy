/** lib/ProfileManager: the solder-paste profile record and its byte image in the
    non-volatile Preferences store (save, load, compare, selected index), and the MCP9600
    thermocouple wrapper with its error sentinels and fault description. The JSON parser,
    the serial printing and the I2C driver are not modelled; what the driver reports is
    given to each operation as a parameter. */
module ProfileManager {

  type byte = x: int | 0 <= x < 0x100
  type uint16 = x: int | 0 <= x < 0x1_0000

  datatype Option<T> = None | Some(value: T)

  const TitleSize: nat := 32
  const AlloySize: nat := 32
  const ReferenceSize: nat := 128
  /** sizeof(profile_t): three character arrays and thirteen 16-bit fields, no padding. */
  const ProfileSize: nat := 218

  /** profile_t; the character arrays are raw bytes. */
  datatype Profile = Profile(title: seq<byte>, alloy: seq<byte>, meltingPoint: uint16,
                             tempRange0: uint16, tempRange1: uint16,
                             timeRange0: uint16, timeRange1: uint16,
                             reference: seq<byte>,
                             preheat0: uint16, preheat1: uint16, soak0: uint16, soak1: uint16,
                             reflow0: uint16, reflow1: uint16, cool0: uint16, cool1: uint16)

  /** The character arrays have their declared sizes. */
  predicate WellSized(p: Profile)
  {
    |p.title| == TitleSize && |p.alloy| == AlloySize && |p.reference| == ReferenceSize
  }

  /** A 16-bit field as the ESP32 stores it, low byte first. */
  function Le16(v: uint16): (b: seq<byte>)
    ensures |b| == 2
  {
    [v % 0x100, v / 0x100]
  }

  function Words(ws: seq<uint16>): (b: seq<byte>)
    ensures |b| == 2 * |ws|
  {
    if ws == [] then [] else Le16(ws[0]) + Words(ws[1..])
  }

  function ReadWords(b: seq<byte>): (ws: seq<uint16>)
    requires |b| % 2 == 0
    ensures 2 * |ws| == |b|
  {
    if b == [] then []
    else
      var lo: int, hi: int := b[0], b[1];
      assert lo + 0x100 * hi <= 0xFF + 0x100 * 0xFF;
      [lo + 0x100 * hi] + ReadWords(b[2..])
  }

  /** The five 16-bit fields between the alloy and the reference. */
  function HeaderWords(p: Profile): seq<uint16>
  {
    [p.meltingPoint, p.tempRange0, p.tempRange1, p.timeRange0, p.timeRange1]
  }

  /** The eight stage temperatures after the reference. */
  function StageWords(p: Profile): seq<uint16>
  {
    [p.preheat0, p.preheat1, p.soak0, p.soak1, p.reflow0, p.reflow1, p.cool0, p.cool1]
  }

  /** The memory image of a profile_t, byte by byte. */
  function ProfileBytes(p: Profile): (b: seq<byte>)
    requires WellSized(p)
    ensures |b| == ProfileSize
  {
    p.title + p.alloy + Words(HeaderWords(p)) + p.reference + Words(StageWords(p))
  }

  /** Reading a profile_t back from its memory image, as the cast in loadProfiles does. */
  function DecodeProfile(b: seq<byte>): (p: Profile)
    requires |b| == ProfileSize
    ensures WellSized(p)
  {
    var h := ReadWords(b[64..74]);
    var s := ReadWords(b[202..218]);
    Profile(b[..32], b[32..64], h[0], h[1], h[2], h[3], h[4], b[74..202],
            s[0], s[1], s[2], s[3], s[4], s[5], s[6], s[7])
  }

  lemma {:induction false} WordsRoundTrip(ws: seq<uint16>)
    ensures ReadWords(Words(ws)) == ws
  {
    if ws != [] {
      WordsRoundTrip(ws[1..]);
      var b := Words(ws);
      assert b[2..] == Words(ws[1..]);
    }
  }

  lemma {:induction false} ReadWordsRoundTrip(b: seq<byte>)
    requires |b| % 2 == 0
    ensures Words(ReadWords(b)) == b
  {
    if b != [] {
      ReadWordsRoundTrip(b[2..]);
      var ws := ReadWords(b);
      assert ws[1..] == ReadWords(b[2..]);
      assert Le16(ws[0]) == b[..2];
    }
  }

  /** Decoding the image of a profile gives the profile back. */
  lemma DecodeEncode(p: Profile)
    requires WellSized(p)
    ensures DecodeProfile(ProfileBytes(p)) == p
  {
    var b := ProfileBytes(p);
    WordsRoundTrip(HeaderWords(p));
    WordsRoundTrip(StageWords(p));
    assert b[..32] == p.title;
    assert b[32..64] == p.alloy;
    assert b[64..74] == Words(HeaderWords(p));
    assert b[74..202] == p.reference;
    assert b[202..218] == Words(StageWords(p));
  }

  /** Every 218-byte image is the image of the profile it decodes to. */
  lemma EncodeDecode(b: seq<byte>)
    requires |b| == ProfileSize
    ensures ProfileBytes(DecodeProfile(b)) == b
  {
    var p := DecodeProfile(b);
    ReadWordsRoundTrip(b[64..74]);
    ReadWordsRoundTrip(b[202..218]);
    assert HeaderWords(p) == ReadWords(b[64..74]);
    assert StageWords(p) == ReadWords(b[202..218]);
    assert b == b[..32] + b[32..64] + b[64..74] + b[74..202] + b[202..218];
  }

  /** The writes of convert_to_byte fit the output buffer: the multiplier is not negative
      and the last write, at multiplier * (n - 1), is inside it. */
  predicate FitsStrided(len: int, multiplier: int, n: nat)
  {
    0 <= multiplier && (n == 0 || multiplier * (n - 1) < len)
  }

  lemma FitsPrefix(len: int, multiplier: int, n: nat, k: nat)
    requires FitsStrided(len, multiplier, n) && k <= n
    ensures FitsStrided(len, multiplier, k)
    ensures k < n ==> 0 <= multiplier * k < len
  {
    if k < n {
      assert multiplier * (n - 1) == multiplier * k + multiplier * (n - 1 - k);
    }
  }

  /** The buffer after the first `n` writes of convert_to_byte: byte i of the value goes to
      position multiplier * i, later writes overwriting earlier ones. */
  function Strided(out: seq<byte>, value: seq<byte>, multiplier: int, n: nat): (r: seq<byte>)
    requires n <= |value| && FitsStrided(|out|, multiplier, n)
    ensures |r| == |out|
  {
    if n == 0 then out
    else
      FitsPrefix(|out|, multiplier, n, n - 1);
      Strided(out, value, multiplier, n - 1)[multiplier * (n - 1) := value[n - 1]]
  }

  /** With multiplier 1 the value is copied to the front of the buffer. */
  lemma {:induction false} StridedByOne(out: seq<byte>, value: seq<byte>, n: nat)
    requires n <= |value| <= |out|
    ensures Strided(out, value, 1, n) == value[..n] + out[n..]
  {
    if n > 0 {
      StridedByOne(out, value, n - 1);
      assert (value[..n - 1] + out[n - 1..])[n - 1 := value[n - 1]] == value[..n] + out[n..];
    }
  }

  /** With multiplier 0 every write lands on the first byte, which ends up holding the
      value's last byte; the rest of the buffer is untouched. */
  lemma {:induction false} StridedByZero(out: seq<byte>, value: seq<byte>, n: nat)
    requires 0 < n <= |value| && 0 < |out|
    ensures Strided(out, value, 0, n) == out[0 := value[n - 1]]
  {
    if n > 1 {
      StridedByZero(out, value, n - 1);
    }
  }

  /** What loadProfiles finds in the store. */
  datatype LoadOutcome = NoData | WrongSize | NotOneRecord | Loaded

  /** The checks loadProfiles makes on the stored length. */
  function LoadCheck(len: nat): LoadOutcome
  {
    if len == 0 then NoData
    else if len % ProfileSize != 0 then WrongSize
    else if len / ProfileSize != 1 then NotOneRecord
    else Loaded
  }

  /** A stored record is copied exactly when it is one profile_t long. */
  lemma LoadAcceptsOneRecord(len: nat)
    ensures LoadCheck(len) == Loaded <==> len == ProfileSize
    ensures LoadCheck(len) == NoData <==> len == 0
  {
    if LoadCheck(len) == Loaded {
      assert len == (len / ProfileSize) * ProfileSize + len % ProfileSize;
    }
  }

  /** What saveProfiles stores: the stack buffer `scratch` after convert_to_byte with
      multiplier 0. */
  function SavedImage(p: Profile, scratch: seq<byte>): (b: seq<byte>)
    requires WellSized(p) && |scratch| == ProfileSize
    ensures |b| == ProfileSize
  {
    Strided(scratch, ProfileBytes(p), 0, ProfileSize)
  }

  /** As written, saveProfiles stores the uninitialised buffer with only its first byte
      replaced, by the last byte of the profile; loading it back does not give the profile
      unless the buffer already held its image. */
  lemma SavedImageIsScratch(p: Profile, scratch: seq<byte>)
    requires WellSized(p) && |scratch| == ProfileSize
    ensures SavedImage(p, scratch) == scratch[0 := ProfileBytes(p)[ProfileSize - 1]]
    ensures DecodeProfile(SavedImage(p, scratch)) == p ==>
              SavedImage(p, scratch) == ProfileBytes(p)
  {
    StridedByZero(scratch, ProfileBytes(p), ProfileSize);
    if DecodeProfile(SavedImage(p, scratch)) == p {
      EncodeDecode(SavedImage(p, scratch));
    }
  }

  /** Whenever the stale buffer's byte 1 is 0 and the profile's second title character is
      not, the image saved as written does not load back as the profile: that title
      character is lost. */
  lemma SavedImageLosesTitle(p: Profile, scratch: seq<byte>)
    requires WellSized(p) && |scratch| == ProfileSize
    requires scratch[1] == 0 && p.title[1] != 0
    ensures DecodeProfile(SavedImage(p, scratch)) != p
  {
    SavedImageIsScratch(p, scratch);
    assert DecodeProfile(SavedImage(p, scratch)).title[1] == 0;
  }

  /** The conversion saveProfiles evidently means: multiplier 1, which stores the image of
      the profile, so loading it returns the profile. */
  function IntendedImage(p: Profile, scratch: seq<byte>): (b: seq<byte>)
    requires WellSized(p) && |scratch| == ProfileSize
    ensures b == ProfileBytes(p)
    ensures LoadCheck(|b|) == Loaded && DecodeProfile(b) == p
  {
    StridedByOne(scratch, ProfileBytes(p), ProfileSize);
    DecodeEncode(p);
    Strided(scratch, ProfileBytes(p), 1, ProfileSize)
  }

  /** The comparison compareProfiles makes: one character of the titles, at the profile's
      own index. */
  predicate TitlesMatchAt(newProfile: Profile, savedProfile: Profile, profileIndex: int)
    requires 0 <= profileIndex < |newProfile.title| && profileIndex < |savedProfile.title|
  {
    newProfile.title[profileIndex] == savedProfile.title[profileIndex]
  }

  /** Any two profiles whose titles agree in the one character at the profile index `k`
      match under the comparison at `k`, even when they differ elsewhere, where the
      whole-record comparison reports a difference. */
  lemma SingleCharacterComparison(newProfile: Profile, savedProfile: Profile, k: nat)
    requires WellSized(newProfile) && WellSized(savedProfile)
    requires k < TitleSize && newProfile.title[k] == savedProfile.title[k]
    ensures TitlesMatchAt(newProfile, savedProfile, k)
    ensures newProfile != savedProfile ==> !SameProfile(newProfile, savedProfile)
  {
    SameProfileIsEquality(newProfile, savedProfile);
  }

  /** The comparison compareProfiles evidently means: the whole record. */
  predicate SameProfile(a: Profile, b: Profile)
    requires WellSized(a) && WellSized(b)
  {
    ProfileBytes(a) == ProfileBytes(b)
  }

  /** Comparing whole images detects every difference between two profiles. */
  lemma SameProfileIsEquality(a: Profile, b: Profile)
    requires WellSized(a) && WellSized(b)
    ensures SameProfile(a, b) <==> a == b
  {
    if SameProfile(a, b) {
      DecodeEncode(a);
      DecodeEncode(b);
    }
  }

  /** convert_to_byte: writes byte i of `value` to output[multiplier * i] and returns the
      number of bytes of the value. */
  method ConvertToByte(value: seq<byte>, output: array<byte>, multiplier: int) returns (count: nat)
    requires FitsStrided(output.Length, multiplier, |value|)
    modifies output
    ensures count == |value|
    ensures output[..] == Strided(old(output[..]), value, multiplier, |value|)
  {
    ghost var before := output[..];
    var i := 0;
    while i < |value|
      invariant 0 <= i <= |value|
      invariant FitsStrided(|before|, multiplier, i)
      invariant output[..] == Strided(before, value, multiplier, i)
    {
      FitsPrefix(output.Length, multiplier, |value|, i);
      FitsPrefix(output.Length, multiplier, |value|, i + 1);
      output[multiplier * i] := value[i];
      i := i + 1;
    }
    count := i;
  }

  /** The Preferences store: one byte record per profile namespace "profile<i>", and the
      selected profile index under "profileUsed" in namespace "store". */
  class ProfileStore {
    var records: map<int, seq<byte>>
    var profileUsed: Option<int>

    /** The store holds what earlier boots left in flash. */
    constructor (flash: map<int, seq<byte>>, selection: Option<int>)
      ensures records == flash && profileUsed == selection
    {
      records := flash;
      profileUsed := selection;
    }

    /** The length getBytes reports for a namespace: 0 when nothing is stored. */
    function StoredLength(profileIndex: int): nat
      reads this
    {
      if profileIndex in records then |records[profileIndex]| else 0
    }

    /** saveProfiles; `scratch` is the content of its uninitialised stack buffer. */
    method SaveProfiles(profileIndex: int, profile: Profile, scratch: seq<byte>)
      requires WellSized(profile) && |scratch| == ProfileSize
      modifies this`records
      ensures records == old(records)[profileIndex := SavedImage(profile, scratch)]
    {
      var content := new byte[ProfileSize];
      forall i | 0 <= i < ProfileSize {
        content[i] := scratch[i];
      }
      assert content[..] == scratch;
      var written := ConvertToByte(ProfileBytes(profile), content, 0);
      records := records[profileIndex := content[..]];
    }

    /** loadProfiles: copies the stored record into profiles[profileIndex] when its length
        passes the checks, and reports which check decided. */
    method LoadProfiles(profileIndex: int, profiles: array<Profile>) returns (outcome: LoadOutcome)
      requires 0 <= profileIndex < profiles.Length
      modifies profiles
      ensures outcome == LoadCheck(StoredLength(profileIndex))
      ensures outcome == Loaded ==> profileIndex in records && |records[profileIndex]| == ProfileSize
      ensures profiles[..] == if outcome == Loaded
                              then old(profiles[..])[profileIndex := DecodeProfile(records[profileIndex])]
                              else old(profiles[..])
    {
      var schLen := StoredLength(profileIndex);
      LoadAcceptsOneRecord(schLen);
      if schLen > 0 {
        if schLen % ProfileSize != 0 {
          outcome := WrongSize;
          return;
        }
        var profileSize := schLen / ProfileSize;
        if profileSize == 1 {
          profiles[profileIndex] := DecodeProfile(records[profileIndex]);
          outcome := Loaded;
        } else {
          outcome := NotOneRecord;
        }
      } else {
        outcome := NoData;
      }
    }

    /** compareProfiles: saves the new profile unless the titles agree at the index. */
    method CompareProfiles(newProfile: Profile, savedProfile: Profile, profileIndex: int,
                           scratch: seq<byte>) returns (matched: bool)
      requires WellSized(newProfile) && WellSized(savedProfile) && |scratch| == ProfileSize
      requires 0 <= profileIndex < TitleSize
      modifies this`records
      ensures matched <==> TitlesMatchAt(newProfile, savedProfile, profileIndex)
      ensures records == if matched then old(records)
                         else old(records)[profileIndex := SavedImage(newProfile, scratch)]
    {
      if newProfile.title[profileIndex] == savedProfile.title[profileIndex] {
        matched := true;
      } else {
        matched := false;
        SaveProfiles(profileIndex, newProfile, scratch);
      }
    }

    method SaveSelectedProfile(profileIndex: int)
      modifies this`profileUsed
      ensures profileUsed == Some(profileIndex)
    {
      profileUsed := Some(profileIndex);
    }

    /** getSelectedProfile: the stored index, 0 when none was ever saved. */
    method GetSelectedProfile() returns (index: int)
      ensures profileUsed == Some(index) || (profileUsed == None && index == 0)
    {
      match profileUsed
      case Some(i) => index := i;
      case None => index := 0;
    }
  }

  // The MCP9600 thermocouple wrapper.

  /** The temperature the wrapper returns when it cannot read. */
  const SensorError: real := -999.0
  const DefaultAddress: byte := 0x67
  /** The fault status of an uninitialised sensor: every bit set. */
  const AllFaults: bv8 := 0xFF

  /** The nine fault masks of the MCP9600 driver, as its header defines them. */
  datatype FaultMasks = FaultMasks(open: bv8, shortVcc: bv8, shortGnd: bv8, shortData: bv8,
                                   alert1: bv8, alert2: bv8, alert3: bv8, alert4: bv8,
                                   dieTemp: bv8)

  /** The masks in the order getFaultDescription tests them. */
  function MaskOrder(m: FaultMasks): (r: seq<bv8>)
    ensures |r| == 9
  {
    [m.open, m.shortVcc, m.shortGnd, m.shortData, m.alert1, m.alert2, m.alert3, m.alert4, m.dieTemp]
  }

  /** The text of each fault, in the same order. */
  const FaultTexts: seq<string> := ["Thermocouple Open", "Thermocouple Short to VCC",
                                    "Thermocouple Short to GND", "Thermocouple Short to Data",
                                    "Alert 1 Active", "Alert 2 Active", "Alert 3 Active",
                                    "Alert 4 Active", "Device Die Temperature High"]
  const Separator: string := ", "
  const NoFaultText: string := "No Fault"

  /** The texts of the faults among the first `n` whose mask meets `fault`, in order. */
  function ActiveTexts(fault: bv8, m: FaultMasks, n: nat): (r: seq<string>)
    requires n <= 9
    ensures |r| <= n
    ensures forall t :: t in r ==> t in FaultTexts
  {
    TextsOfMasks(fault, MaskOrder(m)[..n])
  }

  /** The texts whose mask, among `masks` taken in the order of MaskOrder, meets `fault`. */
  function TextsOfMasks(fault: bv8, masks: seq<bv8>): (r: seq<string>)
    requires |masks| <= 9
    ensures |r| <= |masks|
    ensures forall t :: t in r ==> t in FaultTexts
  {
    if |masks| == 0 then []
    else
      var n := |masks| - 1;
      TextsOfMasks(fault, masks[..n]) + (if fault & masks[n] != 0 then [FaultTexts[n]] else [])
  }

  lemma ActiveTextsNext(fault: bv8, m: FaultMasks, n: nat)
    requires n < 9
    ensures ActiveTexts(fault, m, n + 1) ==
            ActiveTexts(fault, m, n) + (if fault & MaskOrder(m)[n] != 0 then [FaultTexts[n]] else [])
  {
    assert MaskOrder(m)[..n + 1][..n] == MaskOrder(m)[..n];
  }

  /** The parts separated by ", ". */
  function Join(parts: seq<string>): string
  {
    if |parts| == 0 then ""
    else if |parts| == 1 then parts[0]
    else Join(parts[..|parts| - 1]) + Separator + parts[|parts| - 1]
  }

  /** The description getFaultDescription returns. */
  function FaultDescription(fault: bv8, m: FaultMasks): string
  {
    var parts := ActiveTexts(fault, m, |MaskOrder(m)|);
    if parts == [] then NoFaultText else Join(parts)
  }

  /** Each part followed by ", ", as the appends build it. */
  function Terminated(parts: seq<string>): (s: string)
  {
    if |parts| == 0 then "" else Terminated(parts[..|parts| - 1]) + parts[|parts| - 1] + Separator
  }

  lemma {:induction false} TerminatedIsJoinPlusSeparator(parts: seq<string>)
    requires |parts| > 0
    ensures Terminated(parts) == Join(parts) + Separator
  {
    if |parts| > 1 {
      TerminatedIsJoinPlusSeparator(parts[..|parts| - 1]);
    }
  }

  lemma ActiveTextsStep(fault: bv8, m: FaultMasks, k: nat)
    requires k < 9
    ensures Terminated(ActiveTexts(fault, m, k + 1)) ==
            Terminated(ActiveTexts(fault, m, k)) + (if fault & MaskOrder(m)[k] != 0 then FaultTexts[k] + Separator else "")
  {
    var prev := ActiveTexts(fault, m, k);
    ActiveTextsNext(fault, m, k);
    if fault & MaskOrder(m)[k] != 0 {
      assert (prev + [FaultTexts[k]])[..|prev|] == prev;
    } else {
      assert ActiveTexts(fault, m, k + 1) == prev;
    }
  }

  lemma {:induction false} NoActiveTexts(fault: bv8, m: FaultMasks, n: nat)
    requires n <= 9
    ensures ActiveTexts(fault, m, n) == [] <==> forall k :: 0 <= k < n ==> fault & MaskOrder(m)[k] == 0
  {
    if n > 0 {
      NoActiveTexts(fault, m, n - 1);
      ActiveTextsNext(fault, m, n - 1);
    }
  }

  /** The texts' first characters, none of which starts "No Fault". */
  lemma TextsStartWithCapital(t: string)
    requires t in FaultTexts
    ensures |t| > 0 && t[0] in {'T', 'A', 'D'}
    ensures t[|t| - 1] != ' ' && t[|t| - 1] != ','
  {
  }

  lemma {:induction false} JoinEnds(parts: seq<string>)
    requires |parts| > 0 && forall i :: 0 <= i < |parts| ==> |parts[i]| > 0
    ensures |Join(parts)| > 0 && Join(parts)[0] == parts[0][0]
    ensures Join(parts)[|Join(parts)| - 1] == parts[|parts| - 1][|parts[|parts| - 1]| - 1]
  {
    if |parts| > 1 {
      JoinEnds(parts[..|parts| - 1]);
    }
  }

  /** The description is "No Fault" exactly when no mask meets the fault byte, and it
      never ends in a separator. */
  lemma DescriptionNoFault(fault: bv8, m: FaultMasks)
    ensures FaultDescription(fault, m) == NoFaultText <==>
            forall k :: 0 <= k < 9 ==> fault & MaskOrder(m)[k] == 0
    ensures var d := FaultDescription(fault, m); |d| > 0 && d[|d| - 1] != ' ' && d[|d| - 1] != ','
  {
    NoActiveTexts(fault, m, 9);
    var parts := ActiveTexts(fault, m, 9);
    if parts != [] {
      forall i | 0 <= i < |parts|
        ensures |parts[i]| > 0
      {
        TextsStartWithCapital(parts[i]);
      }
      JoinEnds(parts);
      TextsStartWithCapital(parts[0]);
      TextsStartWithCapital(parts[|parts| - 1]);
    }
  }

  /** All nine texts appear, in order, when every mask meets the fault byte; so the 0xFF
      status of an uninitialised sensor describes every fault, provided no mask is zero. */
  lemma {:induction false} EveryFaultListed(fault: bv8, m: FaultMasks, n: nat)
    requires n <= 9
    requires forall k :: 0 <= k < 9 ==> fault & MaskOrder(m)[k] != 0
    ensures ActiveTexts(fault, m, n) == FaultTexts[..n]
  {
    if n > 0 {
      EveryFaultListed(fault, m, n - 1);
      ActiveTextsNext(fault, m, n - 1);
      assert fault & MaskOrder(m)[n - 1] != 0;
      assert FaultTexts[..n] == FaultTexts[..n - 1] + [FaultTexts[n - 1]];
    }
  }

  /** One of the nine tests of getFaultDescription: the k-th text and a separator are
      appended when the k-th mask meets the fault byte. */
  method AppendFault(description: string, fault: bv8, masks: FaultMasks, k: nat) returns (d: string)
    requires k < 9 && description == Terminated(ActiveTexts(fault, masks, k))
    ensures d == Terminated(ActiveTexts(fault, masks, k + 1))
  {
    d := description;
    if fault & MaskOrder(masks)[k] != 0 {
      d := d + FaultTexts[k] + Separator;
    }
    ActiveTextsStep(fault, masks, k);
  }

  class Mcp9600Manager {
    const i2cAddress: byte
    var sensorInitialized: bool

    constructor (address: byte)
      ensures i2cAddress == address && !sensorInitialized
    {
      i2cAddress := address;
      sensorInitialized := false;
    }

    /** begin: `found` says whether the chip answered at the address; the default
        configuration it then writes is the driver's concern. */
    method Begin(found: bool) returns (ok: bool)
      modifies this`sensorInitialized
      ensures ok == found && sensorInitialized == found
    {
      if !found {
        sensorInitialized := false;
        ok := false;
        return;
      }
      sensorInitialized := true;
      ok := true;
    }

    /** readThermocoupleTemperature: `raw` is the driver's reading and `faulted` what its
        check() reports. */
    method ReadThermocoupleTemperature(raw: real, faulted: bool) returns (temperature: real)
      ensures temperature == SensorError <== !sensorInitialized || faulted
      ensures temperature != SensorError ==> temperature == raw
      ensures sensorInitialized && !faulted ==> temperature == raw
    {
      if !sensorInitialized {
        return SensorError;
      }
      if faulted {
        return SensorError;
      }
      temperature := raw;
    }

    method ReadAmbientTemperature(raw: real) returns (temperature: real)
      ensures temperature == if sensorInitialized then raw else SensorError
    {
      if !sensorInitialized {
        return SensorError;
      }
      temperature := raw;
    }

    /** The six configuration setters: each fails on an uninitialised sensor and otherwise
        returns what the driver returns. */
    method Configure(driverResult: bool) returns (ok: bool)
      ensures ok <==> sensorInitialized && driverResult
    {
      if !sensorInitialized {
        return false;
      }
      ok := driverResult;
    }

    /** checkFault: an uninitialised sensor counts as faulted. */
    method CheckFault(driverCheck: bool) returns (fault: bool)
      ensures fault <==> !sensorInitialized || driverCheck
    {
      if !sensorInitialized {
        return true;
      }
      fault := driverCheck;
    }

    /** getFaultStatus: every bit set for an uninitialised sensor. */
    method GetFaultStatus(driverFault: bv8) returns (status: bv8)
      ensures status == if sensorInitialized then driverFault else AllFaults
    {
      if !sensorInitialized {
        return AllFaults;
      }
      status := driverFault;
    }

    predicate IsConnected()
      reads this
    {
      sensorInitialized
    }

    /** getFaultDescription: appends "<text>, " for each mask that meets `fault`, then drops
        the last separator, or answers "No Fault". */
    method GetFaultDescription(fault: bv8, masks: FaultMasks) returns (description: string)
      ensures description == FaultDescription(fault, masks)
    {
      description := "";
      // The nine tests, in the order of MaskOrder.
      var k := 0;
      description := AppendFault(description, fault, masks, k); k := k + 1;
      description := AppendFault(description, fault, masks, k); k := k + 1;
      description := AppendFault(description, fault, masks, k); k := k + 1;
      description := AppendFault(description, fault, masks, k); k := k + 1;
      description := AppendFault(description, fault, masks, k); k := k + 1;
      description := AppendFault(description, fault, masks, k); k := k + 1;
      description := AppendFault(description, fault, masks, k); k := k + 1;
      description := AppendFault(description, fault, masks, k); k := k + 1;
      description := AppendFault(description, fault, masks, k); k := k + 1;
      var parts := ActiveTexts(fault, masks, k);
      assert description == Terminated(parts);
      if |description| > 0 {
        TerminatedIsJoinPlusSeparator(parts);
        description := description[..|description| - 2];
      } else {
        description := NoFaultText;
      }
    }
  }
}
