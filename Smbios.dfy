/** The line scan over the text output of the Solaris `smbios` command
    (SolarisComputerSystem.init, the loop and its ten accumulators).

    Three flags say which SMBIOS structure the scan is in; a line that names a structure
    type switches them, any other structure type ends the scan. Inside a structure an
    ordered chain of labels picks the one accumulator that a line overwrites with the
    trimmed text that follows the label. */
module Smbios {
  import opened JavaLang

  const SmbType := "SMB_TYPE_"
  const SmbTypeBios := "SMB_TYPE_BIOS"
  const SmbTypeSystem := "SMB_TYPE_SYSTEM"
  const SmbTypeBaseboard := "SMB_TYPE_BASEBOARD"

  const VendorMarker := "Vendor:"
  const BiosDateMarker := "Release Date:"
  const BiosVersionMarker := "VersionString:"
  const ManufacturerMarker := "Manufacturer:"
  const ProductMarker := "Product:"
  const VersionMarker := "Version:"
  const SerialNumMarker := "Serial Number:"

  /** The ten accumulators of the scan. */
  datatype Field =
    | Vendor | BiosVersion | BiosDate
    | Manufacturer | Product | SerialNumber
    | BoardManufacturer | Model | Version | BoardSerialNumber

  /** The values of the ten accumulators. */
  datatype Scanned = Scanned(
    vendor: string, biosVersion: string, biosDate: string,
    manufacturer: string, product: string, serialNumber: string,
    boardManufacturer: string, model: string, version: string, boardSerialNumber: string)
  {
    function Get(f: Field): string {
      match f
      case Vendor => vendor
      case BiosVersion => biosVersion
      case BiosDate => biosDate
      case Manufacturer => manufacturer
      case Product => product
      case SerialNumber => serialNumber
      case BoardManufacturer => boardManufacturer
      case Model => model
      case Version => version
      case BoardSerialNumber => boardSerialNumber
    }

    /** These values with the accumulator `f` overwritten by `v`. */
    function With(f: Field, v: string): (r: Scanned)
      ensures r.Get(f) == v
      ensures forall g :: g != f ==> r.Get(g) == Get(g)
    {
      match f
      case Vendor => this.(vendor := v)
      case BiosVersion => this.(biosVersion := v)
      case BiosDate => this.(biosDate := v)
      case Manufacturer => this.(manufacturer := v)
      case Product => this.(product := v)
      case SerialNumber => this.(serialNumber := v)
      case BoardManufacturer => this.(boardManufacturer := v)
      case Model => this.(model := v)
      case Version => this.(version := v)
      case BoardSerialNumber => this.(boardSerialNumber := v)
    }
  }

  /** Every accumulator starts as the empty string. */
  const NoneScanned := Scanned("", "", "", "", "", "", "", "", "", "")

  /** The state of the scan between two lines: the three section flags and the accumulators. */
  datatype ScanState = ScanState(smbTypeBios: bool, smbTypeSystem: bool, smbTypeBaseboard: bool, values: Scanned)

  const Start := ScanState(false, false, false, NoneScanned)

  /** At most one section flag is set. */
  predicate Exclusive(st: ScanState) {
    !(st.smbTypeBios && st.smbTypeSystem)
    && !(st.smbTypeBios && st.smbTypeBaseboard)
    && !(st.smbTypeSystem && st.smbTypeBaseboard)
  }

  datatype Section = NoSection | BiosSection | SystemSection | BaseboardSection

  /** The section whose labels are looked for, read off the flags in the order the
      branches test them. */
  function ActiveSection(st: ScanState): (r: Section)
    ensures r == NoSection <==> !st.smbTypeBios && !st.smbTypeSystem && !st.smbTypeBaseboard
    // with at most one flag set, the section is the one whose flag is set
    ensures Exclusive(st) ==>
      && (r == BiosSection <==> st.smbTypeBios)
      && (r == SystemSection <==> st.smbTypeSystem)
      && (r == BaseboardSection <==> st.smbTypeBaseboard)
  {
    if st.smbTypeBios then BiosSection
    else if st.smbTypeSystem then SystemSection
    else if st.smbTypeBaseboard then BaseboardSection
    else NoSection
  }

  /** The section whose lines may write accumulator `f`. */
  function SectionOf(f: Field): Section {
    match f
    case Vendor | BiosVersion | BiosDate => BiosSection
    case Manufacturer | Product | SerialNumber => SystemSection
    case BoardManufacturer | Model | Version | BoardSerialNumber => BaseboardSection
  }

  /** A label and the accumulator a line carrying it writes. */
  datatype Label = Label(marker: string, field: Field)

  /** The labels of a section, in the order the else-if chain tests them. */
  function Labels(sec: Section): (r: seq<Label>)
    ensures forall k :: 0 <= k < |r| ==> r[k].marker != [] && SectionOf(r[k].field) == sec
  {
    match sec
    case NoSection => []
    case BiosSection =>
      [Label(VendorMarker, Vendor), Label(BiosVersionMarker, BiosVersion), Label(BiosDateMarker, BiosDate)]
    case SystemSection =>
      [Label(ManufacturerMarker, Manufacturer), Label(ProductMarker, Product), Label(SerialNumMarker, SerialNumber)]
    case BaseboardSection =>
      [Label(ManufacturerMarker, BoardManufacturer), Label(ProductMarker, Model),
       Label(VersionMarker, Version), Label(SerialNumMarker, BoardSerialNumber)]
  }

  /** Each accumulator of a section has exactly one label in the section's chain. */
  lemma LabelsOneEach(sec: Section)
    ensures forall i, j :: 0 <= i < j < |Labels(sec)| ==> Labels(sec)[i].field != Labels(sec)[j].field
    ensures forall f :: SectionOf(f) == sec ==> exists k :: 0 <= k < |Labels(sec)| && Labels(sec)[k].field == f
  {
    var ls := Labels(sec);
    forall f | SectionOf(f) == sec ensures exists k :: 0 <= k < |ls| && ls[k].field == f {
      match f
      case Vendor => assert ls[0].field == f;
      case BiosVersion => assert ls[1].field == f;
      case BiosDate => assert ls[2].field == f;
      case Manufacturer => assert ls[0].field == f;
      case Product => assert ls[1].field == f;
      case SerialNumber => assert ls[2].field == f;
      case BoardManufacturer => assert ls[0].field == f;
      case Model => assert ls[1].field == f;
      case Version => assert ls[2].field == f;
      case BoardSerialNumber => assert ls[3].field == f;
    }
  }

  /** A line that names one of the three structure types the scan reads always contains the
      common prefix `SMB_TYPE_`, so it passes the outer test of the section test and never stops
      the scan. */
  lemma TypeNameLines(line: string)
    ensures Contains(line, SmbTypeBios) || Contains(line, SmbTypeSystem) || Contains(line, SmbTypeBaseboard)
      ==> Contains(line, SmbType) && !IsStopLine(line)
  {
    if Contains(line, SmbTypeBios) {
      assert SmbTypeBios[..|SmbType|] == SmbType;
      ContainsPrefix(line, SmbTypeBios, SmbType);
    } else if Contains(line, SmbTypeSystem) {
      assert SmbTypeSystem[..|SmbType|] == SmbType;
      ContainsPrefix(line, SmbTypeSystem, SmbType);
    } else if Contains(line, SmbTypeBaseboard) {
      assert SmbTypeBaseboard[..|SmbType|] == SmbType;
      ContainsPrefix(line, SmbTypeBaseboard, SmbType);
    }
  }

  /** The position of the first label from `from` on whose marker the line contains. */
  function FirstLabelFrom(labels: seq<Label>, line: string, from: nat): (r: Option<nat>)
    requires from <= |labels|
    ensures r.Some? ==> from <= r.value < |labels| && Contains(line, labels[r.value].marker)
    ensures r.Some? ==> forall j :: from <= j < r.value ==> !Contains(line, labels[j].marker)
    ensures r.None? ==> forall j :: from <= j < |labels| ==> !Contains(line, labels[j].marker)
    decreases |labels| - from
  {
    if from == |labels| then None
    else if Contains(line, labels[from].marker) then Some(from)
    else FirstLabelFrom(labels, line, from + 1)
  }

  /** The label that a line picks in section `sec`, if any. */
  function Selected(sec: Section, line: string): (r: Option<Label>)
    ensures r.Some? ==> Contains(line, r.value.marker)
    ensures r.Some? ==> r.value.marker != [] && SectionOf(r.value.field) == sec
  {
    match FirstLabelFrom(Labels(sec), line, 0)
    case None => None
    case Some(k) => Some(Labels(sec)[k])
  }

  /** The value a line carrying `marker` gives its accumulator: `line.split(marker)[1].trim()`. */
  function Extract(line: string, marker: string): (r: Result<string>)
    requires marker != [] && Contains(line, marker)
    ensures r.Thrown? ==> r.exception == ArrayIndexOutOfBounds
  {
    match At(Split(line, marker), 1)
    case Ok(piece) => Ok(Trim(piece))
    case Thrown(e) => Thrown(e)
  }

  /** An extracted value has no blank ends and never contains the label itself. */
  lemma ExtractClean(line: string, marker: string)
    requires marker != [] && Contains(line, marker) && Extract(line, marker).Ok?
    ensures Trim(Extract(line, marker).value) == Extract(line, marker).value
    ensures !Contains(Extract(line, marker).value, marker)
  {
    var piece := At(Split(line, marker), 1).value;
    TrimIdempotent(piece);
    var lo, hi :| 0 <= lo <= hi <= |piece| && Trim(piece) == piece[lo..hi];
    if Contains(Trim(piece), marker) {
      ContainsInSlice(piece, lo, hi, marker);
    }
  }

  /** Extraction, stated without split: it fails exactly when only copies of the marker follow
      its first occurrence, and otherwise yields the trimmed text up to the next occurrence. */
  lemma ExtractMeaning(line: string, marker: string)
    requires marker != [] && Contains(line, marker)
    ensures Extract(line, marker).Ok? <==> !OnlyMarkers(After(line, marker), marker)
    ensures Extract(line, marker).Ok? ==> Extract(line, marker).value == Trim(Between(line, marker))
  {
    SplitSecond(line, marker);
  }

  /** The else-if chain of section `sec` applied to one line: the accumulator of the first label
      whose marker the line contains is overwritten with the extracted value. */
  function ApplyLabels(sec: Section, line: string, values: Scanned): (r: Result<Scanned>)
    // only the accumulators of the section change
    ensures r.Ok? ==> forall f :: SectionOf(f) != sec ==> r.value.Get(f) == values.Get(f)
    ensures r.Thrown? ==> r.exception == ArrayIndexOutOfBounds
  {
    match Selected(sec, line)
    case None => Ok(values)
    case Some(l) =>
      match Extract(line, l.marker)
      case Thrown(e) => Thrown(e)
      case Ok(v) => Ok(values.With(l.field, v))
  }

  /** What one line does to the scan. */
  datatype Step = Continue(next: ScanState) | Stop | Fail(exception: Exception)

  /** A line naming an SMBIOS structure type other than the three the scan reads. */
  predicate IsStopLine(line: string) {
    Contains(line, SmbType)
    && !Contains(line, SmbTypeBios) && !Contains(line, SmbTypeSystem) && !Contains(line, SmbTypeBaseboard)
  }

  /** The flags after the section test of a line that does not stop the scan. */
  function SwitchSection(st: ScanState, line: string): (r: ScanState)
    requires !IsStopLine(line)
    ensures r.values == st.values
    // a line without a structure type keeps the flags
    ensures !Contains(line, SmbType) ==> r == st
    // a line with one sets the flag of the first name it contains
    ensures Contains(line, SmbType) ==>
      && r.smbTypeBios == Contains(line, SmbTypeBios)
      && r.smbTypeSystem == (!Contains(line, SmbTypeBios) && Contains(line, SmbTypeSystem))
      && r.smbTypeBaseboard == (!Contains(line, SmbTypeBios) && !Contains(line, SmbTypeSystem))
    ensures Exclusive(st) ==> Exclusive(r)
  {
    if !Contains(line, SmbType) then st
    else if Contains(line, SmbTypeBios) then st.(smbTypeBios := true, smbTypeSystem := false, smbTypeBaseboard := false)
    else if Contains(line, SmbTypeSystem) then st.(smbTypeBios := false, smbTypeSystem := true, smbTypeBaseboard := false)
    else st.(smbTypeBios := false, smbTypeSystem := false, smbTypeBaseboard := true)
  }

  /** One iteration of the loop: the section test, then the label chain of the section that is
      active afterwards (a section line is itself tested against the labels). */
  function StepLine(st: ScanState, line: string): (r: Step)
    ensures r.Fail? ==> r.exception == ArrayIndexOutOfBounds
  {
    if IsStopLine(line) then Stop
    else
      var st' := SwitchSection(st, line);
      match ApplyLabels(ActiveSection(st'), line, st.values)
      case Thrown(e) => Fail(e)
      case Ok(values) => Continue(st'.(values := values))
  }

  /** What one iteration does to the flags and the accumulators. */
  lemma StepLineMeaning(st: ScanState, line: string)
    // the scan stops exactly at a line naming an unread structure type
    ensures StepLine(st, line).Stop? <==> IsStopLine(line)
    // a line naming a structure type selects the first name it contains
    ensures StepLine(st, line).Continue? && Contains(line, SmbType) ==>
      && StepLine(st, line).next.smbTypeBios == Contains(line, SmbTypeBios)
      && StepLine(st, line).next.smbTypeSystem == (!Contains(line, SmbTypeBios) && Contains(line, SmbTypeSystem))
      && StepLine(st, line).next.smbTypeBaseboard == (!Contains(line, SmbTypeBios) && !Contains(line, SmbTypeSystem))
    // any other line leaves the flags as they were
    ensures StepLine(st, line).Continue? && !Contains(line, SmbType) ==>
      StepLine(st, line).next.(values := st.values) == st
    // at most one flag stays set
    ensures Exclusive(st) && StepLine(st, line).Continue? ==> Exclusive(StepLine(st, line).next)
    // only the accumulators of the active section change
    ensures StepLine(st, line).Continue? ==>
      var next := StepLine(st, line).next;
      forall f :: SectionOf(f) != ActiveSection(next) ==> next.values.Get(f) == st.values.Get(f)
  {
  }

  /** The scan of the remaining lines from state `st`: the accumulators when the lines run out
      or a stop line is met, or the exception a line throws. */
  function Scan(st: ScanState, lines: seq<string>): (r: Result<Scanned>)
    // the only exception that can escape the loop is the one from `split(marker)[1]`
    ensures r.Thrown? ==> r.exception == ArrayIndexOutOfBounds
    decreases |lines|
  {
    if lines == [] then Ok(st.values)
    else match StepLine(st, lines[0])
      case Continue(next) => Scan(next, lines[1..])
      case Stop => Ok(st.values)
      case Fail(e) => Thrown(e)
  }

  // ---------------------------------------------------------------- properties of the scan

  /** Within one line only the first label of the chain whose marker occurs is applied. */
  lemma SelectedIsFirst(sec: Section, line: string, k: nat)
    requires k < |Labels(sec)| && Contains(line, Labels(sec)[k].marker)
    requires forall j :: 0 <= j < k ==> !Contains(line, Labels(sec)[j].marker)
    ensures Selected(sec, line) == Some(Labels(sec)[k])
  {
  }

  /** A line containing none of a section's markers selects no label there. */
  lemma SelectedNone(sec: Section, line: string)
    requires forall j :: 0 <= j < |Labels(sec)| ==> !Contains(line, Labels(sec)[j].marker)
    ensures Selected(sec, line) == None
  {
  }

  /** The label chain applied to a line whose first occurring marker is label k's: label k's
      accumulator gets the extracted value, or the extraction's exception escapes. */
  lemma ApplyLabelsAt(sec: Section, line: string, values: Scanned, k: nat)
    requires k < |Labels(sec)| && Contains(line, Labels(sec)[k].marker)
    requires forall j :: 0 <= j < k ==> !Contains(line, Labels(sec)[j].marker)
    ensures Labels(sec)[k].marker != []
    ensures ApplyLabels(sec, line, values) == match Extract(line, Labels(sec)[k].marker)
      case Thrown(e) => Thrown(e)
      case Ok(v) => Ok(values.With(Labels(sec)[k].field, v))
  {
    SelectedIsFirst(sec, line, k);
  }

  /** The label chain leaves a line that contains none of the section's markers alone. */
  lemma ApplyLabelsNone(sec: Section, line: string, values: Scanned)
    requires forall j :: 0 <= j < |Labels(sec)| ==> !Contains(line, Labels(sec)[j].marker)
    ensures ApplyLabels(sec, line, values) == Ok(values)
  {
    SelectedNone(sec, line);
  }

  /** The scan of `lines[i..]` is the step of `lines[i]` followed by the scan of the rest. */
  lemma ScanUnfold(st: ScanState, lines: seq<string>, i: nat)
    requires i < |lines|
    ensures Scan(st, lines[i..]) == match StepLine(st, lines[i])
      case Continue(next) => Scan(next, lines[i + 1..])
      case Stop => Ok(st.values)
      case Fail(e) => Thrown(e)
  {
    assert lines[i..][0] == lines[i] && lines[i..][1..] == lines[i + 1..];
  }

  /** The scan from line i on, for a line that does not stop it: the flags `switched` the line
      sets and the `outcome` of its labels decide whether the scan throws or goes on. */
  lemma ScanStep(st: ScanState, lines: seq<string>, i: nat, switched: ScanState, outcome: Result<Scanned>)
    requires i < |lines| && !IsStopLine(lines[i])
    requires switched == SwitchSection(st, lines[i])
    requires outcome == ApplyLabels(ActiveSection(switched), lines[i], st.values)
    ensures outcome.Thrown? ==> Scan(st, lines[i..]) == Thrown(outcome.exception)
    ensures outcome.Ok? ==> Scan(st, lines[i..]) == Scan(switched.(values := outcome.value), lines[i + 1..])
  {
    ScanUnfold(st, lines, i);
  }

  /** The scan from a stop line on yields the accumulators as they are. */
  lemma ScanStopLine(st: ScanState, lines: seq<string>, i: nat)
    requires i < |lines| && IsStopLine(lines[i])
    ensures Scan(st, lines[i..]) == Ok(st.values)
  {
    ScanUnfold(st, lines, i);
  }

  /** The first line naming an unread structure type ends the scan: neither it nor any line
      after it changes the outcome, whatever came before. */
  lemma {:induction false} ScanStopsAtUnknownSection(st: ScanState, pre: seq<string>, stop: string, post: seq<string>)
    requires IsStopLine(stop)
    ensures Scan(st, pre + [stop] + post) == Scan(st, pre)
    decreases |pre|
  {
    var lines := pre + [stop] + post;
    if pre == [] {
      assert lines[0] == stop;
    } else {
      assert lines[0] == pre[0];
      assert lines[1..] == pre[1..] + [stop] + post;
      match StepLine(st, pre[0])
      case Continue(next) => ScanStopsAtUnknownSection(next, pre[1..], stop, post);
      case Stop =>
      case Fail(_) =>
    }
  }

  /** Lines seen while no section flag is set, up to the next structure type line, change nothing. */
  lemma {:induction false} ScanOutsideSections(st: ScanState, lines: seq<string>)
    requires ActiveSection(st) == NoSection
    requires forall i :: 0 <= i < |lines| ==> !Contains(lines[i], SmbType)
    ensures Scan(st, lines) == Ok(st.values)
    decreases |lines|
  {
    if lines != [] {
      assert StepLine(st, lines[0]) == Continue(st);
      ScanOutsideSections(st, lines[1..]);
    }
  }

  /** The line selects no label of the section, or one whose extraction does not throw. */
  predicate ExtractsCleanly(sec: Section, line: string) {
    match Selected(sec, line)
    case None => true
    case Some(l) => !OnlyMarkers(After(line, l.marker), l.marker)
  }

  /** The value one line inside section `sec` writes to accumulator `f`, if it writes one. */
  function LineValue(sec: Section, line: string, f: Field): Option<string> {
    match Selected(sec, line)
    case Some(l) => if l.field == f then Some(Trim(Between(line, l.marker))) else None
    case None => None
  }

  /** The value of accumulator `f` after `lines` inside section `sec`: the trimmed text after the
      label in the LAST line that selects `f`, or `dflt` when no line does. */
  function LastValue(sec: Section, lines: seq<string>, f: Field, dflt: string): string
    decreases |lines|
  {
    if lines == [] then dflt
    else match LineValue(sec, lines[|lines| - 1], f)
      case Some(v) => v
      case None => LastValue(sec, lines[..|lines| - 1], f, dflt)
  }

  /** Starting with a line first is the same as starting from the value that line leaves. */
  lemma {:induction false} LastValueCons(sec: Section, line: string, rest: seq<string>, f: Field, dflt: string)
    ensures LastValue(sec, [line] + rest, f, dflt) == LastValue(sec, rest, f, LastValue(sec, [line], f, dflt))
    decreases |rest|
  {
    var first := LastValue(sec, [line], f, dflt);
    if rest == [] {
      assert [line] + rest == [line];
    } else {
      var all := [line] + rest;
      var init := rest[..|rest| - 1];
      assert all[..|all| - 1] == [line] + init;
      assert all[|all| - 1] == rest[|rest| - 1];
      LastValueCons(sec, line, init, f, dflt);
      match LineValue(sec, rest[|rest| - 1], f)
      case Some(v) =>
        assert LastValue(sec, all, f, dflt) == v;
        assert LastValue(sec, rest, f, first) == v;
      case None =>
        assert LastValue(sec, all, f, dflt) == LastValue(sec, [line] + init, f, dflt);
        assert LastValue(sec, rest, f, first) == LastValue(sec, init, f, first);
    }
  }

  /** A line without a structure type name applies the labels of the section already active. */
  lemma StepInsideSection(st: ScanState, line: string)
    requires !Contains(line, SmbType)
    ensures StepLine(st, line) == match ApplyLabels(ActiveSection(st), line, st.values)
      case Thrown(e) => Fail(e)
      case Ok(values) => Continue(st.(values := values))
  {
  }

  /** `LastValue` of a single line. */
  lemma LastValueSingle(sec: Section, line: string, f: Field, dflt: string)
    ensures LastValue(sec, [line], f, dflt) == match LineValue(sec, line, f)
      case Some(v) => v
      case None => dflt
  {
    assert [line][..0] == [];
  }

  /** One line of a section throws exactly when its label is followed only by copies of itself. */
  lemma ApplyLabelsThrows(sec: Section, line: string, values: Scanned)
    ensures ApplyLabels(sec, line, values).Ok? <==> ExtractsCleanly(sec, line)
  {
    match Selected(sec, line)
    case None =>
    case Some(l) => ExtractMeaning(line, l.marker);
  }

  /** Otherwise it leaves each accumulator as `LastValue` of that one line says. */
  lemma ApplyLabelsValues(sec: Section, line: string, values: Scanned)
    requires ApplyLabels(sec, line, values).Ok?
    ensures forall f :: ApplyLabels(sec, line, values).value.Get(f) == LastValue(sec, [line], f, values.Get(f))
  {
    var after := ApplyLabels(sec, line, values).value;
    ApplyLabelsWrites(sec, line, values);
    forall f ensures after.Get(f) == LastValue(sec, [line], f, values.Get(f)) {
      LastValueSingle(sec, line, f, values.Get(f));
    }
  }

  /** A line that does not throw writes the trimmed text after its label to the label's
      accumulator, and nothing else. */
  lemma ApplyLabelsWrites(sec: Section, line: string, values: Scanned)
    requires ApplyLabels(sec, line, values).Ok?
    ensures forall f ::
              ApplyLabels(sec, line, values).value.Get(f) ==
              (match LineValue(sec, line, f) case Some(v) => v case None => values.Get(f))
  {
    match Selected(sec, line)
    case None =>
    case Some(l) => ExtractMeaning(line, l.marker);
  }

  /** Inside one section (no structure type line among `lines`) the scan throws exactly when some
      line's label is followed only by copies of itself, and otherwise leaves each accumulator
      with the value of the last line that selects it: the last matching line wins. */
  lemma ScanWithinSection(st: ScanState, lines: seq<string>)
    requires forall i :: 0 <= i < |lines| ==> !Contains(lines[i], SmbType)
    ensures Scan(st, lines).Ok? <==> forall i :: 0 <= i < |lines| ==> ExtractsCleanly(ActiveSection(st), lines[i])
    ensures Scan(st, lines).Ok? ==>
      forall f :: Scan(st, lines).value.Get(f) == LastValue(ActiveSection(st), lines, f, st.values.Get(f))
  {
    ScanWithinSectionOkClean(st, lines);
    if forall i :: 0 <= i < |lines| ==> ExtractsCleanly(ActiveSection(st), lines[i]) {
      ScanWithinSectionCleanOk(st, lines);
    }
    ScanWithinSectionValues(st, lines);
  }

  /** The throwing half, one direction: a scan that completes met no line whose label is
      followed only by copies of itself. */
  lemma {:induction false} ScanWithinSectionOkClean(st: ScanState, lines: seq<string>)
    requires forall i :: 0 <= i < |lines| ==> !Contains(lines[i], SmbType)
    ensures Scan(st, lines).Ok? ==> forall i :: 0 <= i < |lines| ==> ExtractsCleanly(ActiveSection(st), lines[i])
    decreases |lines|
  {
    if lines != [] && Scan(st, lines).Ok? {
      var sec := ActiveSection(st);
      ScanFirstInSection(st, lines);
      ApplyLabelsThrows(sec, lines[0], st.values);
      var values := ApplyLabels(sec, lines[0], st.values).value;
      ScanWithinSectionOkClean(st.(values := values), lines[1..]);
      forall i | 0 <= i < |lines| ensures ExtractsCleanly(sec, lines[i]) {
        if i > 0 {
          assert lines[i] == lines[1..][i - 1];
        }
      }
    }
  }

  /** The throwing half, other direction: when every line extracts cleanly, the scan completes. */
  lemma {:induction false} ScanWithinSectionCleanOk(st: ScanState, lines: seq<string>)
    requires forall i :: 0 <= i < |lines| ==> !Contains(lines[i], SmbType)
    requires forall i :: 0 <= i < |lines| ==> ExtractsCleanly(ActiveSection(st), lines[i])
    ensures Scan(st, lines).Ok?
    decreases |lines|
  {
    if lines != [] {
      var sec := ActiveSection(st);
      ScanFirstInSection(st, lines);
      ApplyLabelsThrows(sec, lines[0], st.values);
      var values := ApplyLabels(sec, lines[0], st.values).value;
      var rest := lines[1..];
      assert forall i :: 0 <= i < |rest| ==> rest[i] == lines[i + 1];
      ScanWithinSectionCleanOk(st.(values := values), rest);
    }
  }

  /** The value half: the last matching line wins. */
  lemma {:induction false} ScanWithinSectionValues(st: ScanState, lines: seq<string>)
    requires forall i :: 0 <= i < |lines| ==> !Contains(lines[i], SmbType)
    ensures Scan(st, lines).Ok? ==>
      forall f :: Scan(st, lines).value.Get(f) == LastValue(ActiveSection(st), lines, f, st.values.Get(f))
    decreases |lines|
  {
    if lines == [] {
      return;
    }
    var sec := ActiveSection(st);
    var line, rest := lines[0], lines[1..];
    ScanFirstInSection(st, lines);
    match ApplyLabels(sec, line, st.values)
    case Thrown(_) =>
    case Ok(values) =>
      assert forall i :: 0 <= i < |rest| ==> rest[i] == lines[i + 1];
      ScanWithinSectionValues(st.(values := values), rest);
      ApplyLabelsValues(sec, line, st.values);
      forall f ensures LastValue(sec, lines, f, st.values.Get(f))
                       == LastValue(sec, rest, f, values.Get(f)) {
        assert lines == [line] + rest;
        LastValueCons(sec, line, rest, f, st.values.Get(f));
      }
  }

  /** The first line of a stretch inside one section: the scan throws when its labels throw, and
      otherwise goes on in the same section with the accumulators the labels leave. */
  lemma ScanFirstInSection(st: ScanState, lines: seq<string>)
    requires lines != [] && !Contains(lines[0], SmbType)
    ensures ApplyLabels(ActiveSection(st), lines[0], st.values).Thrown? ==> Scan(st, lines).Thrown?
    ensures ApplyLabels(ActiveSection(st), lines[0], st.values).Ok? ==>
      var next := st.(values := ApplyLabels(ActiveSection(st), lines[0], st.values).value);
      Scan(st, lines) == Scan(next, lines[1..]) && ActiveSection(next) == ActiveSection(st)
  {
    StepInsideSection(st, lines[0]);
  }

  // ---------------------------------------------------------------- the loop

  /** `checkLine.split(marker)[1].trim()`, throwing when the split array has no second element. */
  method SplitValue(checkLine: string, marker: string) returns (r: Result<string>)
    requires marker != [] && Contains(checkLine, marker)
    ensures r.Ok? <==> !OnlyMarkers(After(checkLine, marker), marker)
    ensures r.Ok? ==> r.value == Trim(Between(checkLine, marker))
    ensures r == Extract(checkLine, marker)
  {
    ExtractMeaning(checkLine, marker);
    var parts := Split(checkLine, marker);
    var second := At(parts, 1);
    if second.Thrown? {
      return Thrown(second.exception);
    }
    r := Ok(Trim(second.value));
  }

  /** The BIOS branch of the loop body: Vendor, then VersionString, then Release Date. */
  method BiosLabels(checkLine: string, values: Scanned) returns (r: Result<Scanned>)
    ensures r == ApplyLabels(BiosSection, checkLine, values)
  {
    if Contains(checkLine, VendorMarker) {
      ApplyLabelsAt(BiosSection, checkLine, values, 0);
      var value := SplitValue(checkLine, VendorMarker);
      if value.Thrown? { return Thrown(value.exception); }
      r := Ok(values.With(Vendor, value.value));
    } else if Contains(checkLine, BiosVersionMarker) {
      ApplyLabelsAt(BiosSection, checkLine, values, 1);
      var value := SplitValue(checkLine, BiosVersionMarker);
      if value.Thrown? { return Thrown(value.exception); }
      r := Ok(values.With(BiosVersion, value.value));
    } else if Contains(checkLine, BiosDateMarker) {
      ApplyLabelsAt(BiosSection, checkLine, values, 2);
      var value := SplitValue(checkLine, BiosDateMarker);
      if value.Thrown? { return Thrown(value.exception); }
      r := Ok(values.With(BiosDate, value.value));
    } else {
      ApplyLabelsNone(BiosSection, checkLine, values);
      r := Ok(values);
    }
  }

  /** The SYSTEM branch of the loop body: Manufacturer, then Product, then Serial Number. */
  method SystemLabels(checkLine: string, values: Scanned) returns (r: Result<Scanned>)
    ensures r == ApplyLabels(SystemSection, checkLine, values)
  {
    if Contains(checkLine, ManufacturerMarker) {
      ApplyLabelsAt(SystemSection, checkLine, values, 0);
      var value := SplitValue(checkLine, ManufacturerMarker);
      if value.Thrown? { return Thrown(value.exception); }
      r := Ok(values.With(Manufacturer, value.value));
    } else if Contains(checkLine, ProductMarker) {
      ApplyLabelsAt(SystemSection, checkLine, values, 1);
      var value := SplitValue(checkLine, ProductMarker);
      if value.Thrown? { return Thrown(value.exception); }
      r := Ok(values.With(Product, value.value));
    } else if Contains(checkLine, SerialNumMarker) {
      ApplyLabelsAt(SystemSection, checkLine, values, 2);
      var value := SplitValue(checkLine, SerialNumMarker);
      if value.Thrown? { return Thrown(value.exception); }
      r := Ok(values.With(SerialNumber, value.value));
    } else {
      ApplyLabelsNone(SystemSection, checkLine, values);
      r := Ok(values);
    }
  }

  /** The BASEBOARD branch of the loop body: Manufacturer, Product, Version, then Serial Number. */
  method BaseboardLabels(checkLine: string, values: Scanned) returns (r: Result<Scanned>)
    ensures r == ApplyLabels(BaseboardSection, checkLine, values)
  {
    if Contains(checkLine, ManufacturerMarker) {
      ApplyLabelsAt(BaseboardSection, checkLine, values, 0);
      var value := SplitValue(checkLine, ManufacturerMarker);
      if value.Thrown? { return Thrown(value.exception); }
      r := Ok(values.With(BoardManufacturer, value.value));
    } else if Contains(checkLine, ProductMarker) {
      ApplyLabelsAt(BaseboardSection, checkLine, values, 1);
      var value := SplitValue(checkLine, ProductMarker);
      if value.Thrown? { return Thrown(value.exception); }
      r := Ok(values.With(Model, value.value));
    } else if Contains(checkLine, VersionMarker) {
      ApplyLabelsAt(BaseboardSection, checkLine, values, 2);
      var value := SplitValue(checkLine, VersionMarker);
      if value.Thrown? { return Thrown(value.exception); }
      r := Ok(values.With(Version, value.value));
    } else if Contains(checkLine, SerialNumMarker) {
      ApplyLabelsAt(BaseboardSection, checkLine, values, 3);
      var value := SplitValue(checkLine, SerialNumMarker);
      if value.Thrown? { return Thrown(value.exception); }
      r := Ok(values.With(BoardSerialNumber, value.value));
    } else {
      ApplyLabelsNone(BaseboardSection, checkLine, values);
      r := Ok(values);
    }
  }

  /** The section test of the loop body: a line naming a structure type sets the flag of the
      first of BIOS, SYSTEM and BASEBOARD it names and clears the others, or stops the scan when
      it names none of them; any other line leaves the flags as they are. */
  method SectionTest(checkLine: string, smbTypeBios: bool, smbTypeSystem: bool, smbTypeBaseboard: bool)
    returns (stop: bool, bios: bool, system: bool, baseboard: bool)
    ensures stop <==> IsStopLine(checkLine)
    ensures !Contains(checkLine, SmbType) ==>
      (bios, system, baseboard) == (smbTypeBios, smbTypeSystem, smbTypeBaseboard)
    ensures Contains(checkLine, SmbType) && !stop ==>
      && bios == Contains(checkLine, SmbTypeBios)
      && system == (!Contains(checkLine, SmbTypeBios) && Contains(checkLine, SmbTypeSystem))
      && baseboard == (!Contains(checkLine, SmbTypeBios) && !Contains(checkLine, SmbTypeSystem))
  {
    stop, bios, system, baseboard := false, smbTypeBios, smbTypeSystem, smbTypeBaseboard;
    if Contains(checkLine, SmbType) {
      if Contains(checkLine, SmbTypeBios) {
        bios, system, baseboard := true, false, false;
      } else if Contains(checkLine, SmbTypeSystem) {
        bios, system, baseboard := false, true, false;
      } else if Contains(checkLine, SmbTypeBaseboard) {
        bios, system, baseboard := false, false, true;
      } else {
        stop := true;
      }
    }
  }

  /** The label tests of the loop body: the chain of the first section whose flag is set, and
      none when no flag is. */
  method SectionLabels(smbTypeBios: bool, smbTypeSystem: bool, smbTypeBaseboard: bool,
                       checkLine: string, values: Scanned)
    returns (outcome: Result<Scanned>)
    ensures outcome ==
      ApplyLabels(ActiveSection(ScanState(smbTypeBios, smbTypeSystem, smbTypeBaseboard, values)), checkLine, values)
  {
    outcome := Ok(values);
    if smbTypeBios {
      outcome := BiosLabels(checkLine, values);
    } else if smbTypeSystem {
      outcome := SystemLabels(checkLine, values);
    } else if smbTypeBaseboard {
      outcome := BaseboardLabels(checkLine, values);
    } else {
      ApplyLabelsNone(NoSection, checkLine, values);
    }
  }

  /** The loop of SolarisComputerSystem.init over the `smbios` output lines, with its three flags
      and its accumulators: their values when the loop ends, or the exception a
      `split(marker)[1]` throws. */
  method ScanSmbios(lines: seq<string>) returns (r: Result<Scanned>)
    ensures r == Scan(Start, lines)
  {
    var values := NoneScanned;
    var smbTypeBios, smbTypeSystem, smbTypeBaseboard := false, false, false;
    var i := 0;
    while i < |lines|
      invariant i <= |lines|
      // after every line at most one section flag is set
      invariant Exclusive(ScanState(smbTypeBios, smbTypeSystem, smbTypeBaseboard, values))
      invariant Scan(Start, lines) == Scan(ScanState(smbTypeBios, smbTypeSystem, smbTypeBaseboard, values), lines[i..])
    {
      var checkLine := lines[i];
      ghost var before := ScanState(smbTypeBios, smbTypeSystem, smbTypeBaseboard, values);
      var stop;
      stop, smbTypeBios, smbTypeSystem, smbTypeBaseboard :=
        SectionTest(checkLine, smbTypeBios, smbTypeSystem, smbTypeBaseboard);
      if stop {
        ScanStopLine(before, lines, i);
        break;
      }
      ghost var switched := ScanState(smbTypeBios, smbTypeSystem, smbTypeBaseboard, values);
      assert switched == SwitchSection(before, checkLine);
      var outcome := SectionLabels(smbTypeBios, smbTypeSystem, smbTypeBaseboard, checkLine, values);
      ScanStep(before, lines, i, switched, outcome);
      if outcome.Thrown? {
        return Thrown(outcome.exception);
      }
      values := outcome.value;
      i := i + 1;
    }
    r := Ok(values);
  }
}
