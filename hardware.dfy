/**
 * GPU identification and hardware arithmetic of the node agent
 * (src/hardware.rs). Platform reads are inputs: the sysfs files of each PCI
 * device arrive as text (`None` when the file cannot be read), the PCI
 * vendor/device database and the parsed VRAM table arrive as maps, and the
 * memory, CPU and disk facts arrive as numbers.
 */
module Hardware {
  import opened Wrappers
  import opened Text

  /** Rust's fixed-width unsigned integers. */
  type U8 = x: int | 0 <= x < 0x100
  type U16 = x: int | 0 <= x < 0x1_0000
  type U64 = x: int | 0 <= x < 0x1_0000_0000_0000_0000

  // ---------------------------------------------------------------------------
  // Byte counts

  const BytesPerGb: nat := 1000 * 1000 * 1000
  const BytesPerGib: nat := 1024 * 1024 * 1024

  /** `bytes_to_gb`: whole decimal gigabytes, rounded down. */
  function BytesToGb(bytes: U64): (r: U64)
    ensures r * BytesPerGb <= bytes < (r + 1) * BytesPerGb
  {
    bytes / BytesPerGb
  }

  /** `bytes_to_gib`: whole binary gibibytes, rounded down. */
  function BytesToGib(bytes: U64): (r: U64)
    ensures r * BytesPerGib <= bytes < (r + 1) * BytesPerGib
  {
    bytes / BytesPerGib
  }

  /** A gibibyte is larger than a gigabyte, so the GiB figure never exceeds the GB figure. */
  lemma GibNeverExceedsGb(bytes: U64)
    ensures BytesToGib(bytes) <= BytesToGb(bytes)
  {
    var q := BytesToGib(bytes);
    MultiplyMonotone(q, BytesPerGb, BytesPerGib);
  }

  lemma MultiplyMonotone(q: nat, a: nat, b: nat)
    requires a <= b
    ensures q * a <= q * b
  {
  }

  // ---------------------------------------------------------------------------
  // Vendor names

  const AmdVendorName := "Advanced Micro Devices, Inc. [AMD/ATI]"
  const NvidiaVendorName := "NVIDIA Corporation"
  const IntelVendorName := "Intel Corporation"

  /** `map_vendor_to_api_enum`: the closed table of supported vendors; any other name is unsupported. */
  function MapVendorToApiEnum(vendorName: string): (r: Option<string>)
    ensures r == Some("AMD") <==> vendorName == AmdVendorName
    ensures r == Some("NVIDIA") <==> vendorName == NvidiaVendorName
    ensures r == Some("INTEL") <==> vendorName == IntelVendorName
    ensures r.Some? ==> r.value == "AMD" || r.value == "NVIDIA" || r.value == "INTEL"
  {
    if vendorName == AmdVendorName then Some("AMD")
    else if vendorName == NvidiaVendorName then Some("NVIDIA")
    else if vendorName == IntelVendorName then Some("INTEL")
    else None
  }

  // ---------------------------------------------------------------------------
  // VRAM table

  /** The bundled VRAM table once parsed: two optional sections keyed by device-id text. */
  datatype VendorVramMap = VendorVramMap(amd: Option<map<string, U64>>, nvidia: Option<map<string, U64>>)

  /** An absent section reads as an empty one. */
  function Section(section: Option<map<string, U64>>): map<string, U64> {
    section.GetOr(map[])
  }

  /** The merged table: every key of either section; on a shared key the NVIDIA value. */
  function MergeVramSections(sections: VendorVramMap): (all: map<string, U64>)
    ensures all.Keys == Section(sections.amd).Keys + Section(sections.nvidia).Keys
    ensures forall key :: key in Section(sections.nvidia) ==> all[key] == Section(sections.nvidia)[key]
    ensures forall key :: key in Section(sections.amd) && key !in Section(sections.nvidia) ==>
              all[key] == Section(sections.amd)[key]
  {
    Section(sections.amd) + Section(sections.nvidia)
  }

  /** `load_gpu_vram_map_from_str` after parsing: extend an empty map with AMD, then with NVIDIA. */
  method LoadGpuVramMap(sections: VendorVramMap) returns (all: map<string, U64>)
    ensures all == MergeVramSections(sections)
  {
    all := map[];
    if sections.amd.Some? {
      all := all + sections.amd.value;
    }
    if sections.nvidia.Some? {
      all := all + sections.nvidia.value;
    }
  }

  // ---------------------------------------------------------------------------
  // Hexadecimal ids: `u16::from_str_radix(s, 16)`

  predicate IsHexDigit(c: char) {
    ('0' <= c <= '9') || ('a' <= c <= 'f') || ('A' <= c <= 'F')
  }

  predicate AllHexDigits(s: string) {
    forall k :: 0 <= k < |s| ==> IsHexDigit(s[k])
  }

  function DigitValue(c: char): (d: nat)
    requires IsHexDigit(c)
    ensures d < 16
  {
    if '0' <= c <= '9' then c as int - '0' as int
    else if 'a' <= c <= 'f' then c as int - 'a' as int + 10
    else c as int - 'A' as int + 10
  }

  /** The number a string of hex digits denotes, read most significant digit first. */
  function HexValue(digits: string): nat
    requires AllHexDigits(digits)
  {
    if digits == [] then 0
    else 16 * HexValue(digits[..|digits| - 1]) + DigitValue(digits[|digits| - 1])
  }

  /** `from_str_radix` accepts one leading `'+'` before the digits. */
  function SignStripped(s: string): string {
    if s != [] && s[0] == '+' then s[1..] else s
  }

  /**
   * `u16::from_str_radix(s, 16)`: an optional `'+'`, then at least one hex
   * digit of either case, and a value that fits in 16 bits.
   */
  function FromStrRadix16(s: string): Option<U16> {
    var digits := SignStripped(s);
    if digits != [] && AllHexDigits(digits) && HexValue(digits) < 0x1_0000 then Some(HexValue(digits))
    else None
  }

  const HexPrefix := "0x"

  /** How the device loop turns an id file's trimmed text into a number: strip every leading `"0x"`, then parse. */
  function ParseId(idString: string): Option<U16> {
    FromStrRadix16(TrimStartMatches(idString, HexPrefix))
  }

  const LowerHexDigits := "0123456789abcdef"

  /** The last `width` hex digits of `v`, lower case and zero padded, as sysfs prints ids (`"%04x"`). */
  function HexString(v: nat, width: nat): (s: string)
    ensures |s| == width && AllHexDigits(s)
  {
    if width == 0 then "" else HexString(v / 16, width - 1) + [LowerHexDigits[v % 16]]
  }

  function Pow16(n: nat): nat {
    if n == 0 then 1 else 16 * Pow16(n - 1)
  }

  lemma DigitValueOfLowerHex(d: nat)
    requires d < 16
    ensures IsHexDigit(LowerHexDigits[d]) && DigitValue(LowerHexDigits[d]) == d
  {
  }

  lemma {:induction false} HexValueOfHexString(v: nat, width: nat)
    requires v < Pow16(width)
    ensures HexValue(HexString(v, width)) == v
  {
    if width > 0 {
      var s := HexString(v, width);
      HexValueOfHexString(v / 16, width - 1);
      assert s[..|s| - 1] == HexString(v / 16, width - 1);
      DigitValueOfLowerHex(v % 16);
    }
  }

  /** A sysfs id file's text such as `"0x10de"` parses back to the id it prints. */
  lemma SysfsIdParses(v: U16)
    ensures ParseId(HexPrefix + HexString(v, 4)) == Some(v)
  {
    var h := HexString(v, 4);
    var s := HexPrefix + h;
    assert StartsWith(s, HexPrefix);
    assert s[|HexPrefix|..] == h;
    assert !StartsWith(h, HexPrefix) by {
      assert IsHexDigit(h[1]);
    }
    assert TrimStartMatches(s, HexPrefix) == h;
    assert IsHexDigit(h[0]);
    assert SignStripped(h) == h;
    assert Pow16(4) == 0x1_0000;
    HexValueOfHexString(v, 4);
  }

  /**
   * Which ids parse: after the `"0x"`s (and an optional `'+'`) there must be
   * at least one character, every one a hex digit, and a value of at most
   * 0xFFFF; the id then parses to that value.
   */
  lemma ParseIdRejects(idString: string)
    ensures var digits := SignStripped(TrimStartMatches(idString, HexPrefix));
      (digits == [] ==> ParseId(idString).None?)
      && (!AllHexDigits(digits) ==> ParseId(idString).None?)
      && (AllHexDigits(digits) && HexValue(digits) > 0xFFFF ==> ParseId(idString).None?)
      && (ParseId(idString).Some? <==> digits != [] && AllHexDigits(digits) && HexValue(digits) <= 0xFFFF)
      && (ParseId(idString).Some? ==> ParseId(idString).value == HexValue(digits))
  {
  }

  /** Every leading `"0x"` is stripped, so a repeated prefix parses as a single one does. */
  lemma ParseIdIgnoresLeadingPrefix(idString: string)
    ensures ParseId(HexPrefix + idString) == ParseId(idString)
  {
    assert (HexPrefix + idString)[..|HexPrefix|] == HexPrefix;
    assert (HexPrefix + idString)[|HexPrefix|..] == idString;
  }

  /** A leading `'+'` is accepted, and `"0x"` alone is not an id. */
  lemma ParseIdSignAndBarePrefix()
    ensures ParseId("+ff") == Some(0xff)
    ensures ParseId("0x") == None
  {
    assert !StartsWith("+ff", HexPrefix);
    assert SignStripped("+ff") == "ff";
    assert HexValue("ff") == 0xff by {
      assert "ff"[..1] == "f";
    }
    assert "0x" == HexPrefix + "";
  }

  // ---------------------------------------------------------------------------
  // PCI devices

  /** A vendor entry of the PCI database: its name and its device-id to device-name table. */
  datatype PciVendor = PciVendor(name: string, devices: map<U16, string>)

  type PciDatabase = map<U16, PciVendor>

  /** The `class`, `vendor` and `device` files of one sysfs PCI device; `None` where a read fails. */
  datatype PciEntry = PciEntry(classCode: Option<string>, vendor: Option<string>, device: Option<string>)

  datatype Gpu = Gpu(vendor: string, gpuType: string, vram: U64)

  datatype HardwareError =
    | ClassUnreadable
    | VendorUnreadable
    | InvalidVendorId(vendorString: string)
    | DeviceUnreadable
    | InvalidDeviceId(deviceString: string)
    | VramTableInvalid

  /** PCI base class 0x03: display controller. */
  const DisplayClassPrefix := "0x03"

  predicate IsDisplayClass(rawClass: string) {
    StartsWith(Trim(rawClass), DisplayClassPrefix)
  }

  /**
   * The GPU a parsed display device stands for: there is one exactly when its
   * vendor is in the database under a supported name and its device id is in
   * that vendor's table; its VRAM is the table entry for the trimmed device
   * text (with any `"0x"` still on), or 0 without one.
   */
  function Resolve(db: PciDatabase, vram: map<string, U64>, vendorHex: U16, deviceHex: U16, deviceString: string)
    : (r: Option<Gpu>)
    ensures r.Some? <==>
      vendorHex in db && MapVendorToApiEnum(db[vendorHex].name).Some? && deviceHex in db[vendorHex].devices
    ensures r.Some? ==>
      && Some(r.value.vendor) == MapVendorToApiEnum(db[vendorHex].name)
      && r.value.gpuType == db[vendorHex].devices[deviceHex]
      && (deviceString in vram ==> r.value.vram == vram[deviceString])
      && (deviceString !in vram ==> r.value.vram == 0)
  {
    if vendorHex in db && MapVendorToApiEnum(db[vendorHex].name).Some? && deviceHex in db[vendorHex].devices then
      Some(Gpu(MapVendorToApiEnum(db[vendorHex].name).value, db[vendorHex].devices[deviceHex],
               if deviceString in vram then vram[deviceString] else 0))
    else
      None
  }

  /**
   * One pass of the device loop of `list_pci_gpus`: `Failure` ends the whole
   * listing, `Success(None)` moves on, `Success(Some(g))` appends `g`.
   */
  function InspectDevice(db: PciDatabase, vram: map<string, U64>, entry: PciEntry): Result<Option<Gpu>, HardwareError> {
    match entry.classCode
    case None => Failure(ClassUnreadable)
    case Some(rawClass) =>
      if !IsDisplayClass(rawClass) then Success(None)
      else
        match entry.vendor
        case None => Failure(VendorUnreadable)
        case Some(rawVendor) =>
          var vendorString := Trim(rawVendor);
          match ParseId(vendorString)
          case None => Failure(InvalidVendorId(vendorString))
          case Some(vendorHex) =>
            match entry.device
            case None => Failure(DeviceUnreadable)
            case Some(rawDevice) =>
              var deviceString := Trim(rawDevice);
              match ParseId(deviceString)
              case None => Failure(InvalidDeviceId(deviceString))
              case Some(deviceHex) => Success(Resolve(db, vram, vendorHex, deviceHex, deviceString))
  }

  /** What one pass of the loop decides for one device. */
  type Outcome = Result<Option<Gpu>, HardwareError>

  function Found(found: Option<Gpu>): seq<Gpu> {
    if found.Some? then [found.value] else []
  }

  /**
   * Running the loop over per-device outcomes in enumeration order: the
   * first failure ends it, otherwise every found GPU is appended.
   */
  function Collect(outcomes: seq<Outcome>): Result<seq<Gpu>, HardwareError>
    decreases |outcomes|
  {
    if outcomes == [] then Success([])
    else
      match Collect(outcomes[..|outcomes| - 1])
      case Failure(e) => Failure(e)
      case Success(gpus) =>
        match outcomes[|outcomes| - 1]
        case Failure(e) => Failure(e)
        case Success(found) => Success(gpus + Found(found))
  }

  /** The outcome of each enumerated device, in order. */
  function Outcomes(db: PciDatabase, vram: map<string, U64>, entries: seq<PciEntry>): (r: seq<Outcome>)
    ensures |r| == |entries|
    ensures forall k :: 0 <= k < |entries| ==> r[k] == InspectDevice(db, vram, entries[k])
  {
    seq(|entries|, k requires 0 <= k < |entries| => InspectDevice(db, vram, entries[k]))
  }

  /** The device loop of `list_pci_gpus` over `entries`. */
  function ScanDevices(db: PciDatabase, vram: map<string, U64>, entries: seq<PciEntry>): Result<seq<Gpu>, HardwareError> {
    Collect(Outcomes(db, vram, entries))
  }

  /** `list_pci_gpus` as a value: an unparsable VRAM table fails before any device is looked at. */
  function PciGpus(db: PciDatabase, vramSections: Option<VendorVramMap>, entries: seq<PciEntry>)
    : Result<seq<Gpu>, HardwareError>
  {
    match vramSections
    case None => Failure(VramTableInvalid)
    case Some(sections) => ScanDevices(db, MergeVramSections(sections), entries)
  }

  /** Two runs of devices one after the other: the first failure wins, otherwise the GPU lists concatenate. */
  lemma {:induction false} CollectAppend(a: seq<Outcome>, b: seq<Outcome>)
    ensures Collect(a + b) ==
      match Collect(a)
      case Failure(e) => Failure(e)
      case Success(x) =>
        match Collect(b)
        case Failure(e) => Failure(e)
        case Success(y) => Success(x + y)
    decreases |b|
  {
    if b == [] {
      assert a + b == a;
      match Collect(a)
      case Failure(_) =>
      case Success(x) =>
        assert x + [] == x;
    } else {
      var b' := b[..|b| - 1];
      assert (a + b)[..|a + b| - 1] == a + b';
      assert (a + b)[|a + b| - 1] == b[|b| - 1];
      CollectAppend(a, b');
      match Collect(a)
      case Failure(e) =>
      case Success(x) =>
        match Collect(b')
        case Failure(e) =>
        case Success(y) =>
          match b[|b| - 1]
          case Failure(e) =>
          case Success(found) =>
            assert x + (y + Found(found)) == (x + y) + Found(found);
    }
  }

  /** One more successful pass appends what that device found. */
  lemma CollectStep(outcomes: seq<Outcome>, i: nat, gpus: seq<Gpu>)
    requires i < |outcomes| && Collect(outcomes[..i]) == Success(gpus) && outcomes[i].Success?
    ensures Collect(outcomes[..i + 1]) == Success(gpus + Found(outcomes[i].value))
  {
    assert outcomes[..i + 1][..i] == outcomes[..i];
  }

  /** Once a prefix has failed, what follows cannot change the outcome. */
  lemma CollectAbortsAt(outcomes: seq<Outcome>, i: nat)
    requires i < |outcomes|
    requires Collect(outcomes[..i]).Success?
    requires outcomes[i].Failure?
    ensures Collect(outcomes) == Failure(outcomes[i].error)
  {
    assert outcomes[..i + 1][..i] == outcomes[..i];
    CollectAppend(outcomes[..i + 1], outcomes[i + 1..]);
    assert outcomes[..i + 1] + outcomes[i + 1..] == outcomes;
  }

  /** The run succeeds exactly when every device's outcome is a success. */
  lemma {:induction false} CollectSucceedsIff(outcomes: seq<Outcome>)
    ensures Collect(outcomes).Success? <==> forall k :: 0 <= k < |outcomes| ==> outcomes[k].Success?
    decreases |outcomes|
  {
    if outcomes != [] {
      var init := outcomes[..|outcomes| - 1];
      CollectSucceedsIff(init);
      assert forall k :: 0 <= k < |init| ==> init[k] == outcomes[k];
    }
  }

  /** The error reported is that of the first failing device. */
  lemma CollectStopsAtFirstFailure(outcomes: seq<Outcome>, k: nat)
    requires k < |outcomes|
    requires forall j :: 0 <= j < k ==> outcomes[j].Success?
    requires outcomes[k].Failure?
    ensures Collect(outcomes) == Failure(outcomes[k].error)
  {
    CollectSucceedsIff(outcomes[..k]);
    CollectAbortsAt(outcomes, k);
  }

  predicate IsFound(outcome: Outcome) {
    outcome.Success? && outcome.value.Some?
  }

  /** How many of the outcomes append a GPU. */
  function FoundCount(outcomes: seq<Outcome>): nat
    decreases |outcomes|
  {
    if outcomes == [] then 0
    else FoundCount(outcomes[..|outcomes| - 1]) + (if IsFound(outcomes[|outcomes| - 1]) then 1 else 0)
  }

  /**
   * A successful run holds one GPU per found device, in enumeration order:
   * the GPU of the k-th device sits after those of the found devices before
   * it, and there are no others.
   */
  lemma {:induction false} CollectContents(outcomes: seq<Outcome>)
    requires Collect(outcomes).Success?
    ensures |Collect(outcomes).value| == FoundCount(outcomes)
    ensures forall k :: 0 <= k < |outcomes| && IsFound(outcomes[k]) ==>
              FoundCount(outcomes[..k]) < FoundCount(outcomes)
              && Collect(outcomes).value[FoundCount(outcomes[..k])] == outcomes[k].value.value
    decreases |outcomes|
  {
    if outcomes != [] {
      var n := |outcomes| - 1;
      var init := outcomes[..n];
      CollectContents(init);
      var gs := Collect(outcomes).value;
      var gs' := Collect(init).value;
      assert gs == gs' + Found(outcomes[n].value);
      forall k | 0 <= k < |outcomes| && IsFound(outcomes[k])
        ensures FoundCount(outcomes[..k]) < FoundCount(outcomes)
        ensures gs[FoundCount(outcomes[..k])] == outcomes[k].value.value
      {
        if k < n {
          assert outcomes[..k] == init[..k];
          assert outcomes[k] == init[k];
        } else {
          assert outcomes[..k] == init;
        }
      }
    }
  }

  lemma OutcomesAppend(db: PciDatabase, vram: map<string, U64>, a: seq<PciEntry>, b: seq<PciEntry>)
    ensures Outcomes(db, vram, a + b) == Outcomes(db, vram, a) + Outcomes(db, vram, b)
  {
    var l, r := Outcomes(db, vram, a + b), Outcomes(db, vram, a) + Outcomes(db, vram, b);
    forall k | 0 <= k < |l| ensures l[k] == r[k] {
      if k < |a| {
        assert (a + b)[k] == a[k];
      } else {
        assert (a + b)[k] == b[k - |a|];
      }
    }
  }

  /** A device outside the display class is skipped before its vendor or device file is read or parsed. */
  lemma NonDisplayDeviceSkipped(db: PciDatabase, vram: map<string, U64>, entry: PciEntry)
    requires entry.classCode.Some? && !IsDisplayClass(entry.classCode.value)
    ensures InspectDevice(db, vram, entry) == Success(None)
  {
  }

  /** So inserting such a device anywhere in the enumeration changes nothing, however malformed its ids. */
  lemma ScanIgnoresNonDisplayDevice(db: PciDatabase, vram: map<string, U64>,
                                    before: seq<PciEntry>, entry: PciEntry, after: seq<PciEntry>)
    requires entry.classCode.Some? && !IsDisplayClass(entry.classCode.value)
    ensures ScanDevices(db, vram, before + [entry] + after) == ScanDevices(db, vram, before + after)
  {
    var x, y := Outcomes(db, vram, before), Outcomes(db, vram, after);
    var skip: Outcome := Success(None);
    NonDisplayDeviceSkipped(db, vram, entry);
    OutcomesAppend(db, vram, before, [entry]);
    OutcomesAppend(db, vram, before + [entry], after);
    OutcomesAppend(db, vram, before, after);
    assert Outcomes(db, vram, [entry]) == [skip];
    assert [skip][..0] == [];
    assert Collect([skip]) == Success([] + Found(None));
    CollectAppend(x, [skip]);
    CollectAppend(x + [skip], y);
    CollectAppend(x, y);
    match Collect(x)
    case Failure(_) =>
    case Success(gs) =>
      assert gs + [] == gs;
  }

  /**
   * A display device whose vendor text does not parse as a 16-bit hex id
   * (after stripping the `"0x"`s) fails with that text, so the whole listing fails.
   */
  lemma MalformedVendorIdFails(db: PciDatabase, vram: map<string, U64>, entry: PciEntry)
    requires entry.classCode.Some? && IsDisplayClass(entry.classCode.value)
    requires entry.vendor.Some? && ParseId(Trim(entry.vendor.value)).None?
    ensures InspectDevice(db, vram, entry) == Failure(InvalidVendorId(Trim(entry.vendor.value)))
  {
  }

  /** Likewise a display device with a well-formed vendor id whose device text does not parse. */
  lemma MalformedDeviceIdFails(db: PciDatabase, vram: map<string, U64>, entry: PciEntry)
    requires entry.classCode.Some? && IsDisplayClass(entry.classCode.value)
    requires entry.vendor.Some? && ParseId(Trim(entry.vendor.value)).Some?
    requires entry.device.Some? && ParseId(Trim(entry.device.value)).None?
    ensures InspectDevice(db, vram, entry) == Failure(InvalidDeviceId(Trim(entry.device.value)))
  {
  }

  /** A well-formed display device's outcome is its resolution against the database and the VRAM table. */
  lemma WellFormedDisplayDeviceResolved(db: PciDatabase, vram: map<string, U64>, entry: PciEntry,
                                        vendorHex: U16, deviceHex: U16)
    requires entry.classCode.Some? && IsDisplayClass(entry.classCode.value)
    requires entry.vendor.Some? && ParseId(Trim(entry.vendor.value)) == Some(vendorHex)
    requires entry.device.Some? && ParseId(Trim(entry.device.value)) == Some(deviceHex)
    ensures InspectDevice(db, vram, entry) == Success(Resolve(db, vram, vendorHex, deviceHex, Trim(entry.device.value)))
  {
  }

  /**
   * The body of the device loop of `list_pci_gpus` for one device: the reads
   * and parses that return early with an error, the `continue` for a device
   * outside the display class, and the lookups that may or may not yield a GPU.
   */
  method InspectEntry(db: PciDatabase, gpuVramMap: map<string, U64>, entry: PciEntry) returns (outcome: Outcome)
    ensures outcome == InspectDevice(db, gpuVramMap, entry)
  {
    if entry.classCode.None? {
      return Failure(ClassUnreadable);
    }
    var classString := Trim(entry.classCode.value);
    if !StartsWith(classString, DisplayClassPrefix) {
      return Success(None);
    }
    if entry.vendor.None? {
      return Failure(VendorUnreadable);
    }
    var vendorString := Trim(entry.vendor.value);
    var vendorHex := FromStrRadix16(TrimStartMatches(vendorString, HexPrefix));
    if vendorHex.None? {
      return Failure(InvalidVendorId(vendorString));
    }
    if entry.device.None? {
      return Failure(DeviceUnreadable);
    }
    var deviceString := Trim(entry.device.value);
    var deviceHex := FromStrRadix16(TrimStartMatches(deviceString, HexPrefix));
    if deviceHex.None? {
      return Failure(InvalidDeviceId(deviceString));
    }

    var pciVendor := if vendorHex.value in db then Some(db[vendorHex.value]) else None;
    var gpuDevice :=
      if pciVendor.Some? && deviceHex.value in pciVendor.value.devices
      then Some(pciVendor.value.devices[deviceHex.value]) else None;
    var vendorMapped := if pciVendor.Some? then MapVendorToApiEnum(pciVendor.value.name) else None;
    var gpuVram := if deviceString in gpuVramMap then Some(gpuVramMap[deviceString]) else None;

    if vendorMapped.Some? && gpuDevice.Some? {
      return Success(Some(Gpu(vendorMapped.value, gpuDevice.value, gpuVram.GetOr(0))));
    }
    return Success(None);
  }

  /** `list_pci_gpus`: the device loop, with its early returns, over the enumerated devices. */
  method ListPciGpus(db: PciDatabase, vramSections: Option<VendorVramMap>, entries: seq<PciEntry>)
    returns (r: Result<seq<Gpu>, HardwareError>)
    ensures r == PciGpus(db, vramSections, entries)
  {
    if vramSections.None? {
      return Failure(VramTableInvalid);
    }
    var gpuVramMap := LoadGpuVramMap(vramSections.value);
    ghost var outcomes := Outcomes(db, gpuVramMap, entries);
    var allGpus: seq<Gpu> := [];
    var i := 0;
    while i < |entries|
      invariant 0 <= i <= |entries|
      invariant Collect(outcomes[..i]) == Success(allGpus)
    {
      var outcome := InspectEntry(db, gpuVramMap, entries[i]);
      if outcome.Failure? {
        CollectAbortsAt(outcomes, i);
        return Failure(outcome.error);
      }
      CollectStep(outcomes, i, allGpus);
      if outcome.value.Some? {
        allGpus := allGpus + [outcome.value.value];
      } else {
        assert allGpus + [] == allGpus;
      }
      i := i + 1;
    }
    assert outcomes[..i] == outcomes;
    return Success(allGpus);
  }

  // ---------------------------------------------------------------------------
  // Aggregation

  /** A mounted filesystem: where it is mounted and its total size in bytes. */
  datatype Disk = Disk(mountPoint: string, totalSpace: U64)

  /** The snapshot reported for the node. */
  datatype NodeHardware = NodeHardware(
    gpuCount: U8,
    gpuVendor: string,
    gpuType: string,
    gpuMemory: U64,
    cpuCores: U64,
    memoryGb: U64,
    storageGb: U64)

  const Unknown := "UNKNOWN"

  /** Position of the first disk mounted at `"/"`, or `|disks|` when none is. */
  function RootDiskIndex(disks: seq<Disk>): (r: nat)
    ensures r <= |disks|
    ensures r < |disks| ==> disks[r].mountPoint == "/"
    ensures forall k :: 0 <= k < r ==> disks[k].mountPoint != "/"
  {
    if disks == [] then 0
    else if disks[0].mountPoint == "/" then 0
    else 1 + RootDiskIndex(disks[1..])
  }

  /**
   * `collect_client_hardware`: start from the sentinel snapshot, fill in
   * memory, cores and root-disk size, list the GPUs (a failure there is the
   * result), and when there is at least one GPU report the count cast to
   * `u8` and the first GPU's vendor, type and VRAM.
   */
  method CollectClientHardware(totalMemory: U64, cpuCount: U64, disks: seq<Disk>,
                               db: PciDatabase, vramSections: Option<VendorVramMap>, entries: seq<PciEntry>)
    returns (r: Result<NodeHardware, HardwareError>)
    ensures PciGpus(db, vramSections, entries).Failure? ==>
              r == Failure(PciGpus(db, vramSections, entries).error)
    ensures PciGpus(db, vramSections, entries).Success? ==> r.Success?
    ensures r.Success? ==>
      var hw := r.value;
      var gpus := PciGpus(db, vramSections, entries).value;
      var root := RootDiskIndex(disks);
      && PciGpus(db, vramSections, entries).Success?
      && hw.memoryGb == BytesToGib(totalMemory)
      && hw.cpuCores == cpuCount
      && hw.storageGb == (if root < |disks| then BytesToGb(disks[root].totalSpace) else 0)
      && (gpus == [] ==> hw.gpuCount == 0 && hw.gpuVendor == Unknown && hw.gpuType == Unknown && hw.gpuMemory == 0)
      && (gpus != [] ==>
            && hw.gpuCount == |gpus| % 0x100
            && hw.gpuVendor == gpus[0].vendor
            && hw.gpuType == gpus[0].gpuType
            && hw.gpuMemory == gpus[0].vram)
  {
    var nodeHardware := NodeHardware(
      gpuCount := 0, gpuVendor := Unknown, gpuType := Unknown, gpuMemory := 0,
      cpuCores := 0, memoryGb := 0, storageGb := 0);
    nodeHardware := nodeHardware.(memoryGb := BytesToGib(totalMemory));
    nodeHardware := nodeHardware.(cpuCores := cpuCount);

    var root := RootDiskIndex(disks);
    if root < |disks| {
      nodeHardware := nodeHardware.(storageGb := BytesToGb(disks[root].totalSpace));
    }

    var gpus := ListPciGpus(db, vramSections, entries);
    if gpus.Failure? {
      return Failure(gpus.error);
    }

    if gpus.value != [] {
      nodeHardware := nodeHardware.(gpuCount := |gpus.value| % 0x100);
      nodeHardware := nodeHardware.(gpuVendor := gpus.value[0].vendor);
      nodeHardware := nodeHardware.(gpuType := gpus.value[0].gpuType);
      nodeHardware := nodeHardware.(gpuMemory := gpus.value[0].vram);
    }
    return Success(nodeHardware);
  }
}
