/** SolarisComputerSystem: what init does with the accumulators of the smbios scan (guarded
    copies into the firmware and system fields, the release date rewrite, the baseboard
    initializer), and the serial number fallback chain of getSystemSerialNumber.

    The commands the Java code runs are not run here: the lines printed by `smbios` and by
    `prtconf -pv` and the first line printed by `sneep` are parameters, and so is
    ParseUtil.getSingleQuoteStringValue, an uninterpreted function from a line to a string. */
module Solaris {
  import opened JavaLang
  import opened Smbios

  /** SystemInfo.UNKNOWN, the placeholder for a value that cannot be found. Only the fact that
      it is not empty is used. */
  const Unknown := "unknown"

  /** The `prtconf -pv` property that carries the chassis serial number. */
  const ChassisSnMarker := "chassis-sn:"

  /** The fields of a SolarisFirmware object. */
  datatype Firmware = Firmware(manufacturer: string, version: string, releaseDate: string)

  /** The four strings a BaseboardInitializer carries into the SolarisBaseboard it builds. */
  datatype Baseboard = Baseboard(manufacturer: string, model: string, version: string, serialNumber: string)

  /** The fields of a computer system object. */
  datatype SystemRecord = SystemRecord(
    manufacturer: string, model: string, serialNumber: string, firmware: Firmware, baseboard: Baseboard)

  // ---------------------------------------------------------------- release date

  /** The firmware release date for a non-empty scanned BIOS date: the text taken as MM/DD/YYYY
      and rewritten to YYYY-MM-DD by fixed offsets, or the text itself when one of the three
      substring calls throws. */
  function ReleaseDate(biosDate: string): (r: string)
    ensures |biosDate| >= 10 ==> r == biosDate[6..10] + "-" + biosDate[..2] + "-" + biosDate[3..5]
    ensures |biosDate| < 10 ==> r == biosDate
  {
    match Substring(biosDate, 6, 10)
    case Thrown(_) => biosDate
    case Ok(year) =>
      match Substring(biosDate, 0, 2)
      case Thrown(_) => biosDate
      case Ok(month) =>
        match Substring(biosDate, 3, 5)
        case Thrown(_) => biosDate
        case Ok(day) => year + "-" + month + "-" + day
  }

  /** A date written month, separator, day, separator, year (and perhaps more text) comes out as
      year-month-day; whatever follows the four year digits is dropped. */
  lemma ReleaseDateReorders(month: string, sep1: char, day: string, sep2: char, year: string, rest: string)
    requires |month| == 2 && |day| == 2 && |year| == 4
    ensures ReleaseDate(month + [sep1] + day + [sep2] + year + rest) == year + "-" + month + "-" + day
  {
    var d := month + [sep1] + day + [sep2] + year + rest;
    assert d[..2] == month;
    assert d[3..5] == day;
    assert d[6..10] == year;
  }

  /** The rewritten date has the YYYY-MM-DD shape: ten characters with dashes at 4 and 7. */
  lemma ReleaseDateShape(biosDate: string)
    requires |biosDate| >= 10
    ensures |ReleaseDate(biosDate)| == 10
    ensures ReleaseDate(biosDate)[4] == '-' && ReleaseDate(biosDate)[7] == '-'
  {
  }

  // ---------------------------------------------------------------- serial number

  /** The index of the first line at or after `from` that contains `marker`. */
  function FirstContaining(lines: seq<string>, marker: string, from: nat): (r: Option<nat>)
    requires from <= |lines|
    ensures r.Some? ==> from <= r.value < |lines| && Contains(lines[r.value], marker)
    ensures r.Some? ==> forall j :: from <= j < r.value ==> !Contains(lines[j], marker)
    ensures r.None? ==> forall j :: from <= j < |lines| ==> !Contains(lines[j], marker)
    decreases |lines| - from
  {
    if from == |lines| then None
    else if Contains(lines[from], marker) then Some(from)
    else FirstContaining(lines, marker, from + 1)
  }

  /** What getSystemSerialNumber returns: the `sneep` answer when it is not empty; otherwise the
      quoted value of the first `prtconf -pv` line that contains the chassis-sn property (only
      that line is looked at); and the unknown placeholder when that too is empty or absent. */
  function SystemSerialNumber(sneep: string, prtconf: seq<string>, quote: string -> string): (r: string)
    ensures r != ""
    ensures sneep != "" ==> r == sneep
    ensures sneep == "" && (forall i :: 0 <= i < |prtconf| ==> !Contains(prtconf[i], ChassisSnMarker)) ==>
      r == Unknown
    ensures forall k ::
      (sneep == "" && 0 <= k < |prtconf| && Contains(prtconf[k], ChassisSnMarker)
       && forall j :: 0 <= j < k ==> !Contains(prtconf[j], ChassisSnMarker)) ==>
      r == (if quote(prtconf[k]) != "" then quote(prtconf[k]) else Unknown)
  {
    var found :=
      if sneep != "" then sneep
      else match FirstContaining(prtconf, ChassisSnMarker, 0)
        case None => ""
        case Some(k) => quote(prtconf[k]);
    if found == "" then Unknown else found
  }

  /** getSystemSerialNumber: ask `sneep`, then search the `prtconf -pv` lines, breaking at the
      first line with the chassis-sn property, then fall back to the unknown placeholder. */
  method GetSystemSerialNumber(sneep: string, prtconf: seq<string>, quote: string -> string)
    returns (serialNumber: string)
    ensures serialNumber == SystemSerialNumber(sneep, prtconf, quote)
  {
    serialNumber := sneep;
    if serialNumber == "" {
      var marker := ChassisSnMarker;
      var i := 0;
      while i < |prtconf|
        invariant i <= |prtconf|
        invariant serialNumber == ""
        invariant FirstContaining(prtconf, marker, 0) == FirstContaining(prtconf, marker, i)
      {
        var checkLine := prtconf[i];
        if Contains(checkLine, marker) {
          serialNumber := quote(checkLine);
          break;
        }
        i := i + 1;
      }
    }
    if serialNumber == "" {
      serialNumber := Unknown;
    }
  }

  // ---------------------------------------------------------------- after the scan

  /** `value` when it is not empty, `otherwise` when it is: the guard in front of each setter. */
  function NonEmptyOr(value: string, otherwise: string): (r: string)
    ensures value != "" ==> r == value
    ensures value == "" ==> r == otherwise
  {
    if value != "" then value else otherwise
  }

  /** The object state init leaves after a scan that completed with accumulators `s`, from the
      state `prior` it had before and the fields `newFirmware` of a new SolarisFirmware. */
  function Populate(prior: SystemRecord, newFirmware: Firmware, s: Scanned,
                    sneep: string, prtconf: seq<string>, quote: string -> string): (r: SystemRecord)
    // an empty scanned value never overwrites a default; a non-empty one is copied unchanged
    ensures s.vendor == "" ==> r.firmware.manufacturer == newFirmware.manufacturer
    ensures s.vendor != "" ==> r.firmware.manufacturer == s.vendor
    ensures s.biosVersion == "" ==> r.firmware.version == newFirmware.version
    ensures s.biosVersion != "" ==> r.firmware.version == s.biosVersion
    ensures s.manufacturer == "" ==> r.manufacturer == prior.manufacturer
    ensures s.manufacturer != "" ==> r.manufacturer == s.manufacturer
    ensures s.product == "" ==> r.model == prior.model
    ensures s.product != "" ==> r.model == s.product
    // the release date is reformatted, and left alone when no date was scanned
    ensures s.biosDate == "" ==> r.firmware.releaseDate == newFirmware.releaseDate
    ensures s.biosDate != "" ==> r.firmware.releaseDate == ReleaseDate(s.biosDate)
    // the serial number falls back to the other sources and is never empty
    ensures r.serialNumber != ""
    ensures s.serialNumber != "" ==> r.serialNumber == s.serialNumber
    ensures s.serialNumber == "" ==> r.serialNumber == SystemSerialNumber(sneep, prtconf, quote)
    // the baseboard receives the four raw scanned strings
    ensures r.baseboard == Baseboard(s.boardManufacturer, s.model, s.version, s.boardSerialNumber)
  {
    var firmware := Firmware(
      NonEmptyOr(s.vendor, newFirmware.manufacturer),
      NonEmptyOr(s.biosVersion, newFirmware.version),
      if s.biosDate != "" then ReleaseDate(s.biosDate) else newFirmware.releaseDate);
    var serial := if s.serialNumber != "" then s.serialNumber else SystemSerialNumber(sneep, prtconf, quote);
    SystemRecord(
      NonEmptyOr(s.manufacturer, prior.manufacturer),
      NonEmptyOr(s.product, prior.model),
      serial,
      firmware,
      Baseboard(s.boardManufacturer, s.model, s.version, s.boardSerialNumber))
  }

  // ---------------------------------------------------------------- the object

  class SolarisComputerSystem {
    var manufacturer: string
    var model: string
    var serialNumber: string
    var firmware: Firmware
    var baseboard: Baseboard

    /** The object's fields as one value. */
    function Record(): SystemRecord
      reads this
    {
      SystemRecord(manufacturer, model, serialNumber, firmware, baseboard)
    }

    /** The object as the superclass constructor leaves it, before init runs; those initial
        values belong to AbstractComputerSystem and are taken as given. */
    constructor (initial: SystemRecord)
      ensures Record() == initial
    {
      manufacturer, model, serialNumber := initial.manufacturer, initial.model, initial.serialNumber;
      firmware, baseboard := initial.firmware, initial.baseboard;
    }

    /** init: scan the `smbios` lines, then set the firmware, the manufacturer, the model, the
        serial number and the baseboard. A `split(marker)[1]` that throws escapes before any
        field is set. */
    method Init(smbios: seq<string>, sneep: string, prtconf: seq<string>, quote: string -> string,
                newFirmware: Firmware)
      returns (completion: Completion)
      modifies this
      ensures Scan(Start, smbios).Thrown? ==>
        completion == Threw(ArrayIndexOutOfBounds) && Record() == old(Record())
      ensures Scan(Start, smbios).Ok? ==>
        completion == Normal
        && Record() == Populate(old(Record()), newFirmware, Scan(Start, smbios).value, sneep, prtconf, quote)
    {
      var scanned := ScanSmbios(smbios);
      if scanned.Thrown? {
        return Threw(scanned.exception);
      }
      var s := scanned.value;

      var fw := newFirmware;
      if s.vendor != "" {
        fw := fw.(manufacturer := s.vendor);
      }
      if s.biosVersion != "" {
        fw := fw.(version := s.biosVersion);
      }
      if s.biosDate != "" {
        fw := fw.(releaseDate := ReleaseDate(s.biosDate));
      }

      if s.manufacturer != "" {
        manufacturer := s.manufacturer;
      }
      if s.product != "" {
        model := s.product;
      }
      var serial := s.serialNumber;
      if serial == "" {
        serial := GetSystemSerialNumber(sneep, prtconf, quote);
      }
      serialNumber := serial;

      var initializer := Baseboard(s.boardManufacturer, s.model, s.version, s.boardSerialNumber);
      firmware := fw;
      baseboard := initializer;
      completion := Normal;
    }
  }
}
